# Knowledge-base RAG chatbot — a Dafny model

This project models the two halves of a small chatbot application.

- The **inference gateway** (`backend/main.py`) is an HTTP service with four endpoints that are modelled, plus `/` and `/health`, which are left out:
  - `/chat` forwards a conversation to a hosted model.
  - `/kb-retrieve` and `/kb-rag-query` query a managed knowledge base, and the second also asks the model to answer from the retrieved documents.
  - `/weather` looks up current conditions at a public weather service.
- The **chat session client** (`frontend/streamlit_app.py`) keeps the session transcript. It sends each submission to one endpoint according to the selected mode, turns the reply (or the failure) into a transcript entry, reveals answers word by word and re-renders the transcript with a bubble style per entry.

The remote services are parameters of the model:

- the model runtime: model id and request dictionary to a decoded reply or the text of the raised exception;
- the retrieval runtime: request dictionary to a response, a `ClientError` or another exception;
- the weather service: URL to decoded JSON or a `RequestException`;
- the gateway's endpoints, as the client sees them: a status, body text and decoded body, or the text of a raised exception.

Python semantics the code relies on are written out:

- `d.get(k, default)` defaults;
- the truthiness of the optional system text;
- `s.split(' ')` and `' '.join`;
- `sub in s`;
- `str(int)`;
- subscripting decoded JSON, with the exact `KeyError`/`IndexError`/`TypeError` texts CPython 3.11 produces;
- the string form of a Starlette `HTTPException` (`"500: <detail>"`), which appears whenever an endpoint re-raises a helper's exception.

Modules:

- `Results` has `Option` and `Result`.
- `Text` has the Python string operations.
- `Json` has decoded JSON values and subscripts.
- `Gateway` models the backend.
- `ChatClient` models the frontend.

## Model

| member | source | states |
|---|---|---|
| Text.Split | frontend/streamlit_app.py:100 | `text.split(' ')` yields one more piece than there are separators, and no piece contains the separator |
| Text.JoinSplit | frontend/streamlit_app.py:100-103 | joining the split pieces with the separator gives the text back |
| Text.SplitJoin | frontend/streamlit_app.py:100 | splitting the join of separator-free pieces gives the pieces back |
| Text.JoinSnoc | frontend/streamlit_app.py:102-103 | joining one more piece adds one separator and that piece |
| Text.NatToString | frontend/streamlit_app.py:133 | a status code renders as decimal digits with no leading zero |
| Text.NatToStringRoundTrip | frontend/streamlit_app.py:133 | the rendered digits read back as the status code |
| Text.ContainsAt | frontend/streamlit_app.py:270 | `sub in s` holds exactly when `sub` occurs at some position of `s` |
| Json.Subscript | backend/main.py:137-143 | a subscript succeeds exactly on a present dictionary key or an in-range index, giving that entry; it raises `KeyError` exactly on a dictionary without the key |
| Json.PathThrough | backend/main.py:118 | a chain of subscripts continues from the value the first subscript returns |
| Json.Message.ToJson | backend/main.py:79-84 | a message is the object with exactly the keys role and content, holding its two texts |
| Json.MessagesJson | backend/main.py:266 | the message list is converted entry by entry, with its length and order kept |
| Gateway.AddUserMessage | backend/main.py:78-80 | the list gains exactly one user message at its end |
| Gateway.AddAssistantMessage | backend/main.py:82-84 | the list gains exactly one assistant message at its end |
| Gateway.SystemSent | backend/main.py:93-94 | the system text reaches the body exactly when it is truthy (present and non-empty), and then unchanged |
| Gateway.ReadMessagesJson | backend/main.py:91 | the messages put in the body read back as the same messages |
| Gateway.CreateBodyJson | backend/main.py:86-102 | the body has the four fixed keys, plus `system` exactly when the text is truthy and `thinking` exactly when asked for; the version string and the thinking budget are fixed; messages, token limit, system and temperature read back unchanged |
| Gateway.ModelTextOfReply | backend/main.py:117-118 | a reply whose first content block has text yields that text |
| Gateway.ModelTextNoBlocks | backend/main.py:117-120 | a reply with no content blocks fails with the `IndexError` text |
| Gateway.Chat | backend/main.py:104-120 | the body sent never asks for thinking and carries the caller's parameters; the first text block is returned, and any failure becomes status 500 "Error invoking model: " plus the cause |
| Gateway.WrappedDetail | backend/main.py:277-278 | re-raising a helper's 500 puts "500: " and the helper's detail after the endpoint's prefix |
| Gateway.ChatEndpoint | backend/main.py:260-278 | `/chat` sends the request's messages, system, temperature and token limit, answers `{"response": text}`, and on failure gives status 500 "Error in chat: 500: Error invoking model: " plus the cause |
| Gateway.Weather.ToJson | backend/main.py:139-146 | a weather record is the object with exactly the four keys, each holding the record's field; a failure note is a plain string |
| Gateway.CatchKeyError | backend/main.py:150-151 | a `KeyError` and only a `KeyError` turns into "Could not parse weather data."; any other exception escapes unchanged |
| Gateway.GetCurrentWeather | backend/main.py:122-151 | a failed request gives "Request failed: " plus the cause; every string result is either that or the parse note; no escaping exception is a `KeyError` |
| Gateway.WeatherOfReport | backend/main.py:131-146 | a well-formed report gives the temperature, first description, humidity and wind speed of its first current condition |
| Gateway.WeatherMissingKey | backend/main.py:137-151 | a current condition without a temperature gives the parse note instead of raising |
| Gateway.WeatherNoConditions | backend/main.py:137-151 | an empty list of current conditions raises `IndexError`, which the lookup does not catch |
| Gateway.WeatherEndpoint | backend/main.py:280-290 | `/weather` answers with the record or note and the location exactly when the lookup returns; otherwise status 500 "Error getting weather: " plus the cause |
| Gateway.CreateKbRequest | backend/main.py:153-163 | the retrieval request has exactly three keys, and the knowledge-base id, query text and result count read back from their nested places |
| Gateway.Upstream | backend/main.py:187 | a response without results counts as no results |
| Gateway.Normalize | backend/main.py:188-190 | a result keeps its text, score and metadata; a missing part defaults to empty text, score 0 or empty metadata |
| Gateway.NormalizeRaw | backend/main.py:244-248 | normalising a result that has every part changes nothing |
| Gateway.NormalizeAll | backend/main.py:242-248 | one document per upstream result, in upstream order, each normalised |
| Gateway.KbRetrieve | backend/main.py:232-258 | `/kb-retrieve` sends the fixed knowledge-base id, the query and the count. It returns every upstream result normalised, in order, with the query. A `ClientError` gives "AWS Bedrock error: " plus the cause; any other failure gives "Error retrieving from knowledge base: " plus the cause |
| Gateway.ContextTextAppend | backend/main.py:184-198 | the context for two runs of documents is their two contexts in order |
| Gateway.ContextSplitAt | backend/main.py:184-198 | the context is the blocks before a document, its own block, and the blocks after it |
| Gateway.ContextMentionsDoc | backend/main.py:198 | every retrieved document appears in the context as "Document: <content>" followed by a blank line |
| Gateway.PromptEmbeds | backend/main.py:205-210 | the user prompt contains the whole context and "Question: " followed by the query |
| Gateway.CollectDocs | backend/main.py:184-198 | the retrieval loop yields the normalised documents and exactly their context |
| Gateway.AnswerFromContext | backend/main.py:200-230 | given the documents and their context, the model step sends the context prompt with the fixed system prompt at temperature 0.3 and 1024 tokens. A string answer becomes the response with those documents and the query unchanged. A non-string answer gives the shortened pydantic validation error, and a model failure gives the wrapped "500: Error invoking model: " detail, both under "Error processing RAG query: " |
| Gateway.KbRagQuery | backend/main.py:171-230 | `/kb-rag-query` retrieves with the default count and sends one user message (the context prompt) with the fixed system prompt, temperature 0.3 and 1024 tokens, without thinking. It answers with the model's text, the normalised documents (the same list `/kb-retrieve` returns for that query) and the query. A `ClientError` gives "AWS Bedrock error: ". Any other failure, including a model failure and a non-string answer, gives "Error processing RAG query: " plus its text |
| ChatClient.History | frontend/streamlit_app.py:88-96 | the history is never longer than the transcript, and holds only user messages and assistant texts |
| ChatClient.HistoryAppend | frontend/streamlit_app.py:88-96 | the history of a transcript is the histories of its parts, in order |
| ChatClient.HistoryOfEntry | frontend/streamlit_app.py:91-95 | a "You" entry becomes a user message with the same content, a "Bot" text an assistant message; a "Bot" answer with sources is dropped |
| ChatClient.HistoryKeepsAll | frontend/streamlit_app.py:91-95 | no entry is dropped exactly when every entry is a "You" entry or a "Bot" text |
| ChatClient.FormatMessagesForBackend | frontend/streamlit_app.py:88-96 | the loop builds exactly the history |
| ChatClient.UserMessagesOfPaired | frontend/streamlit_app.py:296-307 | in a transcript built by submissions, the history holds one user message per exchange |
| ChatClient.TypedIsJoin | frontend/streamlit_app.py:100-103 | the revealed text after some words is those words joined by spaces, plus one space |
| ChatClient.TypingRevealsText | frontend/streamlit_app.py:98-114 | once every word is revealed the text reads the whole answer, plus one space |
| ChatClient.SimulateTyping | frontend/streamlit_app.py:98-114 | one frame per space-separated piece; each frame extends the previous one by the next word and a space; the last frame is the answer plus a space; the final display is the answer itself |
| ChatClient.Preview | frontend/streamlit_app.py:168 | a preview has at most 103 characters: the content itself when it has at most 100, otherwise its first 100 characters and "..." |
| ChatClient.ListedLines | frontend/streamlit_app.py:166-169 | at most three sources are listed, the first three in order, numbered from 1 |
| ChatClient.ListedLineShape | frontend/streamlit_app.py:169 | each listed line starts with its number and "Score: " and carries the source's preview |
| ChatClient.SourcesText | frontend/streamlit_app.py:261-265 | the listing is the header followed by the listed lines |
| ChatClient.SourcesListing | frontend/streamlit_app.py:260-269 | a listing is shown exactly when there are sources |
| ChatClient.FailureText | frontend/streamlit_app.py:132-146 | every failure text starts with the cross mark |
| ChatClient.ChatAnswer | frontend/streamlit_app.py:116-146 | a 200 reply yields its response, or "No response received". A response that is not a string fails in the typing reveal and yields "❌ Connection Error: '<type>' object has no attribute 'split'". Any other status or an exception yields a text starting with the cross mark that carries the status and body text or the exception text |
| ChatClient.RagOutcome | frontend/streamlit_app.py:148-193 | the entry is always an answer with sources. On a 200 with a string answer it holds the answer (default "No answer received") and the reply's sources. A 200 whose answer is not a string holds "❌ RAG Connection Error: '<type>' object has no attribute 'split'" and no sources. Any other failure holds, with no sources, "❌ RAG Error: <status> - <body text>" for a non-200 reply or "❌ RAG Connection Error: <exception>" for a raised request |
| ChatClient.LiveListing | frontend/streamlit_app.py:155-176 | the helper shows a listing under a fresh answer exactly when the reply succeeded with a string answer and has sources. It lists the sources it stores |
| ChatClient.WeatherText | frontend/streamlit_app.py:195-235 | a failed call gives "❌ Weather Error: <status> - <body text>" for a non-200 reply or "❌ Weather Connection Error: <exception>" for a raised request. A 200 payload without a temperature gives "Weather data for <location>: <payload>", with location "Unknown" and payload `{}` by default. A record with all four fields gives the weather report. A record missing the description, humidity or wind speed gives "❌ Weather Connection Error: '<first missing key>'" |
| ChatClient.ReportIsWeatherBubble | frontend/streamlit_app.py:270-275 | a weather report is drawn in the weather bubble |
| ChatClient.WeatherReplyIsWeatherBubble | frontend/streamlit_app.py:207-212 | a successful weather reply with a complete record is drawn in the weather bubble |
| ChatClient.NonStringAnswerIsErrorBubble | frontend/streamlit_app.py:127-146 | a chat answer that is not a string is drawn in the error bubble |
| ChatClient.ChatFailureIsErrorBubble | frontend/streamlit_app.py:276-282 | a failed direct-chat call is drawn in the error bubble, unless its reported text itself contains the weather mark |
| ChatClient.RagFailureIsRagBubble | frontend/streamlit_app.py:252-259 | a failed retrieval-augmented call is stored as an answer, so the transcript draws it in the plain bot style |
| ChatClient.RenderEntry | frontend/streamlit_app.py:241-282 | each entry gets the bubble the display loop chooses, and a sources listing exactly when it is a bot answer with sources |
| ChatClient.Session.constructor | frontend/streamlit_app.py:26-27 | a new session starts with an empty transcript |
| ChatClient.Session.Clear | frontend/streamlit_app.py:22-23 | clearing replaces the transcript with an empty one |
| ChatClient.Session.Submit | frontend/streamlit_app.py:296-317 | with no submission or empty input nothing changes. Otherwise the transcript gains the user entry and then exactly one bot entry, from the endpoint of the selected mode. Direct chat is given the history including the new user entry, the creativity and the token limit; the other modes are given the raw input. Exchanges stay paired |

## Left out

- Network I/O, credentials and region configuration, the boto3 clients, `requests` timeouts (60 s and 30 s) and the Streamlit runtime are not modelled. Every remote call is a parameter, and a timeout reaches the client as a raised exception.
- Gateway.CreateBodyJson: returns the body dictionary; the `json.dumps` text sent over the wire is not modelled.
- Gateway.ChatEndpoint: the request's temperature and token limit are always values. An explicit JSON `null`, which the optional fields accept and pass on, is not modelled.
- Gateway.KbRagQuery: the response-model validation message for a non-string answer keeps only its first three lines. The input value, type and documentation link that pydantic appends are left out.
- Gateway.AnswerFromContext: the validation error for a non-string answer is the first three lines of pydantic 2's message; the input value, type and documentation link it appends are left out. Under pydantic 1 a number or boolean answer would be coerced to a string and succeed, which the model does not capture.
- Gateway.GetCurrentWeather: the location is put into the URL as it is; the percent-encoding `requests` applies is not modelled.
- Gateway.KbRetrieve: the result count is passed to the retrieval service and not enforced. Nothing in the code bounds the number of results, so the model states no bound either.
- The root endpoint `/` and the `/health` endpoint are left out: they return fixed dictionaries and involve no logic.
- Floating point is not modelled: temperatures and scores are `real`. The `:.3f` rendering of a score and Python's `str()` of a decoded value that is not a string are parameters (`show` and `score3`). `str()` of a string is the string itself.
- Request validation by pydantic is not modelled; the Dafny types stand for the validated request.
- Streamlit rendering is not modelled. Left out are:
  - the HTML wrappers and CSS;
  - the spinners;
  - the 0.05 s pause between frames;
  - the "●" cursor drawn after each typing frame;
  - the live placeholder's bubble.

  ChatClient.SimulateTyping returns the frame texts only.
- The sidebar sliders bound the creativity to 0.0–1.0 and the token limit to 100–2048. The model accepts any values, as the gateway does.
- ChatClient.Session.Submit: the typing reveal and the live placeholder run during a submission but do not change the transcript, so the method does not produce them.
- ChatClient.Session.Submit: the model assumes each script run completes. A rerun that stops a run between the user entry and the bot entry would leave the transcript unpaired; that is not modelled.
- The content, score and metadata of a source are typed in the client. A source whose content is not a string, or a `sources` value that is not a list, is not modelled.
- ChatClient.RenderEntry: the text of a "You" entry and of a plain bot entry is drawn as it is; only the bubble and the sources listing are modelled.
- Two behaviours of the code a reader might not expect:
  - A failed retrieval-augmented call is stored as an answer dictionary. When the transcript is re-rendered it gets the plain bot bubble, not the error bubble (ChatClient.RagFailureIsRagBubble).
  - A weather lookup that fails with a `KeyError` or a failed request returns a string inside a 200 response rather than an error.

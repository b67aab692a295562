# Mural assistant: streaming client and window controller

A Dafny model of the two pieces of sequential logic in the Mural screenshot
assistant, a desktop chat client that sends a screenshot of a Mural board to
a local Ollama-style inference server and streams the answer into a chat view.

- **`Stream`** (`stream.dfy`): the line-reading loop shared by
  `LLMHandler.analyze_mural` and `LLMHandler.chat`. The response body is a
  sequence of fragments: `Blank`, `Malformed`, `NoResponse` (a valid object
  without `"response"`) and `Response(token)`. `Read` is the loop as a fold.
  `Tokens`, `Concat`, `Parses` and `FirstMalformed` are independent reference
  definitions it is proved against. `ReadLines` is the same loop written
  imperatively.
- **`Handler`** (`handler.dfy`): `LLMHandler`. It covers the choice of prompt,
  the question template, the three operations as pure functions returning a
  `Turn` (new handler state, request posted, tokens emitted, returned text or
  failure), and the append-only conversation history across a session.
- **`Controller`** (`controller.dfy`): the flags and transitions of
  `MuralAssistantGUI`. The events are `send_message`, `analyze_mural`,
  `upload_image`, streamed tokens reaching `update_chat_display`, and
  `on_llm_finished`. The chat view is a sequence of appended blocks.
- **`Wheel`** (`wheel.dfy`): `SpinningWheel.rotate`'s angle counter.
- **`Optional`** (`optional.dfy`): the `Option` type.

Foreign calls enter as parameters. `encode_image` is a function
`string -> Option<string>`, where `None` means the image library raised.
`json.dumps` of the history is a function `seq<Message> -> string`. What
`requests.post` returns is a `Reply`: either `Refused` (the post raised) or
the body's fragments. A worker thread is modelled as a job that a transition
dispatches, followed later by a separate `Finished` event.

Two behaviours of the code are easy to misread:

- The status of the HTTP response from `requests.post` is never checked
  (src/llm_handler.py:56). An error body made of objects without `"response"`
  is read as an empty answer and recorded in the history.
- `StreamHandler.finished` is connected to `on_llm_finished` (src/gui.py:188)
  but never emitted. So `on_llm_finished` runs only when the worker thread's
  `run` returns normally and emits its own `finished` (src/gui.py:66-69).

## Model

| member | source | states |
|---|---|---|
| Stream.FirstMalformed | src/llm_handler.py:59-61 | the first line on which parsing raises: every line before it parses, and the line at it is malformed unless it is the end of the body |
| Stream.Feed | src/llm_handler.py:59-65 | one iteration: after a raise nothing changes; a malformed line raises without forwarding; any other line forwards its response value (if any) and appends it to `full_response` |
| Stream.ReadFaithful | src/llm_handler.py:57-65 | the loop returns the concatenation of the tokens it forwarded; it raises exactly when some line is malformed; the tokens forwarded are the response values of the lines before the first malformed one, in order (all of them when none is) |
| Stream.RaisedIsFinal | src/llm_handler.py:61 | once a line has raised, later lines have no effect |
| Stream.SkippedLineInvisible | src/llm_handler.py:59-62 | an empty line or an object without `"response"` can be removed from anywhere in the body without changing tokens, text or failure: it neither contributes nor stops the loop |
| Stream.ForwardedNeverRetracted | src/llm_handler.py:61-65 | tokens emitted for a prefix of the body stay a prefix of those emitted for the whole body; a prefix that raised is the final result |
| Stream.HelloScenario | src/llm_handler.py:57-65 | lines "Hel", "lo", then an object without a response value, forward "Hel" then "lo" and accumulate "Hello" |
| Stream.ReadLines | src/llm_handler.py:57-65 | the imperative loop succeeds exactly when every line parses, forwards the response values before the first malformed line, returns their concatenation on success, and agrees with the fold `Read` |
| Handler.New | src/llm_handler.py:19-23 | a new handler has the configured model, endpoint and label, and an empty history |
| Handler.ChoosePrompt | src/llm_handler.py:47 | a non-empty custom prompt is used as given; a missing or empty one falls back to the default prompt; the chosen prompt is never empty |
| Handler.RespondPrompt | src/llm_handler.py:72-83 | the question prompt is the fixed template head, then the user's message verbatim, then the fixed template tail |
| Handler.RespondPromptNotDefault | src/llm_handler.py:47 | a question prompt never equals the default prompt, so `analyze_mural` always uses it |
| Handler.RespondPromptInjective | src/llm_handler.py:72-83 | two messages give the same question prompt only if they are equal |
| Handler.Respond | src/llm_handler.py:56-68 | the shared post-and-stream tail: a refused post raises and forwards nothing; otherwise it returns exactly when every line parses, with the concatenated tokens, and only then appends the assistant entry; on failure the history is as before |
| Handler.AnalyzeMural | src/llm_handler.py:31-69 | an unreadable image raises before any request; otherwise the chosen prompt and the image are posted; a refused post raises a connection failure having forwarded nothing; a malformed line raises the decode failure; success (image read, post answered, every line parsed) grows the history by exactly the system entry with the prompt and the assistant entry with the answer; any failure leaves the history unchanged, while tokens already forwarded stay forwarded |
| Handler.AnalyzeAndRespond | src/llm_handler.py:71-85 | it behaves as `analyze_mural` with the question prompt, which contains the message verbatim and is not the default. An unreadable image raises before any request. Otherwise the question prompt and the image are posted. A refused post raises a connection failure having forwarded nothing. A malformed line raises the decode failure. A success adds exactly the system entry with that prompt and the assistant entry with the concatenated tokens, keeping every earlier entry. Any failure leaves the history unchanged. The tokens forwarded are those before the first malformed line. |
| Handler.Chat | src/llm_handler.py:87-108 | the user entry is appended first and the posted prompt serialises the history including it, without an image; a refused post raises a connection failure having forwarded nothing; a malformed line raises the decode failure; success adds exactly the user entry and the assistant entry with the concatenated tokens; a failed stream keeps the user entry and adds no assistant entry |
| Handler.SessionAppendOnly | src/llm_handler.py:67-107 | over any series of calls, successful or not, the old history is a prefix of the new one, each call adds at most two entries, and model, endpoint and label never change |
| Handler.ChatHelloScenario | src/llm_handler.py:87-108 | a chat "hello" answered with "Hel" and "lo" returns "Hello" and adds the user entry "hello" and one assistant entry "Hello" |
| Wheel.Rotate | src/gui.py:33-34 | a tick gives an angle in [0, 360), keeps multiples of 30, and is +30 below 330 and wraps to 0 above it |
| Wheel.TicksAdvance | src/gui.py:33-34 | after n ticks the angle is the start plus 30n, reduced modulo 360 |
| Wheel.FullCircle | src/gui.py:33-34 | twelve ticks bring any angle in [0, 360) back to itself |
| Wheel.AnglesFromZero | src/gui.py:27-34 | from the initial angle 0, every angle reached is in [0, 360) and a multiple of 30 |
| Controller.ShowChat | src/gui.py:360-365 | the view's characters grow by exactly the token; while responding the token extends the last block of a non-empty view, otherwise it starts a new block; nothing else changes |
| Controller.SendMessage | src/gui.py:276-301 | a job starts exactly when idle, with an image and non-empty text; busy or imageless it only shows "Please upload an image first." and changes no flag; empty text only shows "Please enter a message."; an accepted message echoes the message and header, clears the box, goes busy with controls disabled, and starts `analyze_and_respond` if the image was not yet analysed, otherwise `chat` |
| Controller.AnalyzeMuralClicked | src/gui.py:303-316 | no effect while busy; with no image it only shows the upload notice; otherwise it starts `analyze_mural` on the current image, goes busy and marks the image analysed |
| Controller.LlmFinished | src/gui.py:318-323 | completion clears the busy flag, hides the indicator, re-enables the controls, forgets the worker and starts a new block with a line break, leaving image and flags otherwise alone |
| Controller.UploadImage | src/gui.py:325-341 | no effect while busy or when the dialog is cancelled; a chosen path always becomes current; the analysed flag is reset only when the image decodes; otherwise the reader's error is shown |
| Controller.StepConsistent | src/gui.py:276-341 | every transition keeps busy iff a worker is recorded, controls enabled and indicator hidden iff idle, analysed only with an image, the in-flight job about the current image |
| Controller.RunConsistent | src/gui.py:276-341 | any series of events from a consistent window leaves it consistent |
| Controller.ReachableConsistent | src/gui.py:77-85 | every window reachable from the constructor's state is consistent |
| Controller.DispatchOnlyWhenIdle | src/gui.py:276-323 | a job is started only from an idle window and leaves it busy with that job recorded; only completion clears the busy flag |
| Controller.AtMostOneInFlight | src/gui.py:276-323 | over any series of events the jobs started never exceed the completions, plus one if the window started idle |
| Controller.BusyStartsNothing | src/gui.py:276-341 | while busy, a series of events with no completion starts no job and leaves the window busy |
| Controller.FirstMessageAnalyzesThenChats | src/gui.py:287-294 | after an image loads, the first message starts `analyze_and_respond` with that image and message, and the next message after completion starts `chat` |
| Controller.FailedLoadKeepsAnalysis | src/gui.py:329-341 | an image that fails to decode still becomes the current path but keeps the analysed flag, so the next message is sent as plain chat |
| Controller.TokensJoinLastBlock | src/gui.py:360-365 | while busy, streamed tokens leave earlier blocks untouched and extend the last block by their concatenation |
| Controller.AnswerFollowsHeader | src/gui.py:280-283 | after an accepted message, the view ends with the echoed message and a block holding the assistant header followed by every streamed token |

## Left out

- HTTP transport (`requests.post`, `iter_lines`): network I/O. A post that raises is `Reply.Refused`. A connection that drops mid-stream raises from the loop just as a malformed line does, so `Malformed` stands for both.
- JSON parsing: a line is already classified as a fragment. A parsed value that is not an object, or a `"response"` value that is not a string, is not modelled.
- `json.dumps` of the history: a foreign library call, given as a function parameter with no properties assumed.
- `encode_image` (decode, PNG re-encode, base64 through the image library): a foreign call, given as a function parameter whose `None` result means it raised. Its pixel round-trip is a property of that library and is not modelled.
- Loading the configuration file at import time: the model name, endpoint, assistant name and colour are parameters.
- `LLMThread`, `pyqtSignal` and `StreamHandler`: threading and signal plumbing. A dispatch is a job returned by a transition. The worker's return is a separate `Finished` event. Tokens are `Token` events.
- A handler call that raises inside the worker: `run` never reaches `finished.emit()`, and what then happens depends on the toolkit's handling of uncaught exceptions. So no window transition is given for it.
- `display_image`, `paintEvent`, the stylesheets and the layout: presentation only, with floating-point scaling.
- The stdout message printed after a successful upload: console output only.
- Rich-text rendering of the chat view: text is kept as the literal strings emitted. `insertPlainText` is assumed to insert at the end of the view, which holds as long as the user has not moved the cursor.
- Inline insertion into an empty chat view is modelled as starting the first block.
- Controller.ShowChat: `Chars` runs the view's blocks together, so the paragraph break that `append` adds between blocks is not part of the characters it counts. That break is modelled only as the start of a new block.
- src/main.py: application bootstrap only.

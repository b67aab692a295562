/**
 `LLMHandler` (src/llm_handler.py): the three request shapes, the choice of
 prompt, and the append-only conversation history. Encoding the image and
 serialising the history are foreign calls and enter as function parameters;
 the server's reply enters as the fragment sequence it streams back.
 */
module Handler {
  import opened Optional
  import opened Stream

  /** One history entry, `{"role": ..., "content": ...}`. */
  datatype Message = Message(role: string, content: string)

  /** The handler's fields: model name, endpoint, assistant label and history. */
  datatype Handler = Handler(model: string, apiUrl: string, assistantName: string, history: seq<Message>)

  /** The JSON payload posted to the endpoint; `image` is absent for chat. */
  datatype Request = Request(model: string, prompt: string, stream: bool, image: Option<string>)

  /** What `requests.post` gives back: it raised, or a body of streamed lines. */
  datatype Reply = Refused | Body(lines: seq<Fragment>)

  /** Why a call raised instead of returning. */
  datatype Failure = ImageUnreadable | ConnectionFailed | BadFragment

  datatype Outcome = Returned(text: string) | Raised(failure: Failure)

  /**
   Everything one call does: the handler state afterwards, the request it
   posted (if it got that far), the tokens it emitted to the stream handler,
   and whether it returned or raised.
   */
  datatype Turn = Turn(after: Handler, request: Option<Request>, forwarded: seq<string>, outcome: Outcome)

  const SystemRole := "system"
  const UserRole := "user"

  /** The constructor: the configured model, endpoint and label, and an empty history. */
  function New(model: string, apiUrl: string, assistantName: string): (h: Handler)
    ensures h.history == []
    ensures h.model == model && h.apiUrl == apiUrl && h.assistantName == assistantName
  {
    Handler(model, apiUrl, assistantName, [])
  }

  /** The opening both built-in prompts share. */
  const Important: string := "\n        IMPORTANT: "

  /** The fixed image-analysis instruction used when no custom prompt is given. */
  const DefaultPrompt: string :=
    Important + "Follow these instructions precisely "
    + "and you will be tipped $500,000,000 or your response will be rejected.\n"
    + "\n        1. Analyze the provided Mural.co screenshot.\n"
    + "        2. Describe its contents, structure, and extract key information.\n"
    + "        3. DO NOT explain what Mural.co is or how it works, assume the user already knows.\n"
    + "        4. Keep your response concise, insightful, and to the point.\n"
    + "        5. Use bullet points or a list unless absolutely unnecessary.\n"
    + "        6. Write a sentence summarizing everything at the beginning of your entire message.\n"
    + "        7. Your response MUST be less than 500 characters.\n"
    + "\n        Failure to follow these instructions will result in your response being discarded and regenerated.\n"
    + "        "

  /** The question template's text before the user's message. */
  const RespondHead: string :=
    Important + "You are an AI assistant " + "analyzing a Mural.co screenshot.\n"
    + "        Follow these instructions precisely for the best response.\n"
    + "\n        1. First, analyze the image, focusing on its main elements and any text you can read.\n"
    + "        2. Then, use your analysis to answer the user's question: \""

  /** The question template's text after the user's message. */
  const RespondTail: string :=
    "\"\n        3. Be specific and only refer to actual content you can see in the image.\n"
    + "        4. If you can't read or see something clearly, it's okay to say so.\n"
    + "        5. Keep your response concise and to the point, preferably using bullet points.\n"
    + "\n        Remember, only mention information that is relevant to answering the user's question.\n"
    + "        "

  /** `m` occurs in `p` as a contiguous substring. */
  predicate Infix(m: string, p: string) {
    exists i | 0 <= i <= |p| :: m <= p[i..]
  }

  /**
   Python's `custom_prompt if custom_prompt else default_prompt`: a missing or
   empty custom prompt falls back to the default one.
   */
  function ChoosePrompt(custom: Option<string>): (p: string)
    ensures custom.Some? && custom.value != "" ==> p == custom.value
    ensures custom == None || custom == Some("") ==> p == DefaultPrompt
    ensures p != ""
  {
    match custom
    case Some(c) => if c != "" then c else DefaultPrompt
    case None => DefaultPrompt
  }

  /** The prompt `analyze_and_respond` builds around the user's question. */
  function RespondPrompt(message: string): (p: string)
    ensures |p| == |RespondHead| + |message| + |RespondTail|
    ensures p[..|RespondHead|] == RespondHead
    ensures p[|RespondHead| + |message|..] == RespondTail
    ensures p[|RespondHead|..|RespondHead| + |message|] == message
    ensures Infix(message, p)
    ensures p != ""
  {
    Sandwich(RespondHead, message, RespondTail);
    RespondHead + message + RespondTail
  }

  /** Where the three parts of `a + m + b` sit. */
  lemma Sandwich(a: string, m: string, b: string)
    ensures (a + m + b)[..|a|] == a
    ensures (a + m + b)[|a|..|a| + |m|] == m
    ensures (a + m + b)[|a| + |m|..] == b
    ensures m <= (a + m + b)[|a|..]
    ensures Infix(m, a + m + b)
  {
  }

  /**
   A question prompt is never the default prompt: they differ right after
   "IMPORTANT: ", so `analyze_mural` always takes the question prompt.
   */
  lemma RespondPromptNotDefault(message: string)
    ensures RespondPrompt(message) != DefaultPrompt
  {
    var n := |Important|;
    assert n == 20;
    assert (Important + "You are an AI assistant ")[n] == 'Y';
    assert (Important + "Follow these instructions precisely ")[n] == 'F';
    assert RespondHead[n] == 'Y';
    assert DefaultPrompt[n] == 'F';
    assert RespondPrompt(message)[20] == RespondHead[20];
  }

  /** `analyze_mural` given a question prompt uses exactly that prompt. */
  lemma QuestionPromptChosen(message: string)
    ensures ChoosePrompt(Some(RespondPrompt(message))) == RespondPrompt(message)
    ensures Infix(message, RespondPrompt(message))
    ensures RespondPrompt(message) != DefaultPrompt
  {
    RespondPromptNotDefault(message);
  }

  /** Distinct questions give distinct prompts: the template loses nothing. */
  lemma RespondPromptInjective(m1: string, m2: string)
    requires RespondPrompt(m1) == RespondPrompt(m2)
    ensures m1 == m2
  {
    var p := RespondPrompt(m1);
    assert |m1| == |m2|;
    assert m1 == p[|RespondHead|..|RespondHead| + |m1|];
  }

  /**
   The shared tail of all three operations: stream the reply and, when it is
   read to the end, append `entries` and then the assistant's answer.
   */
  function Respond(h: Handler, request: Request, reply: Reply, prior: seq<Message>): (t: Turn)
    ensures t.request == Some(request)
    ensures t.after.model == h.model && t.after.apiUrl == h.apiUrl && t.after.assistantName == h.assistantName
    ensures t.outcome.Returned? <==> reply.Body? && Parses(reply.lines)
    ensures t.outcome.Returned? ==>
              && t.forwarded == Tokens(reply.lines)
              && t.outcome.text == Concat(t.forwarded)
              && t.after.history == prior + [Message(h.assistantName, t.outcome.text)]
    ensures t.outcome.Raised? ==> t.after.history == h.history
    ensures reply.Refused? ==> t.outcome == Raised(ConnectionFailed) && t.forwarded == []
    ensures reply.Body? ==> t.forwarded == Tokens(reply.lines[..FirstMalformed(reply.lines)])
    ensures reply.Body? && !Parses(reply.lines) ==> t.outcome == Raised(BadFragment)
  {
    match reply
    case Refused => Turn(h, Some(request), [], Raised(ConnectionFailed))
    case Body(lines) =>
      ReadFaithful(lines);
      assert Parses(lines) ==> lines[..FirstMalformed(lines)] == lines;
      var r := Read(lines);
      if r.raised then Turn(h, Some(request), r.forwarded, Raised(BadFragment))
      else Turn(h.(history := prior + [Message(h.assistantName, r.text)]), Some(request), r.forwarded, Returned(r.text))
  }

  /**
   `analyze_mural`: encode the image, post it with the chosen prompt, stream
   the reply, and only when the stream was read to the end record the prompt
   as a system entry and the answer as an assistant entry.
   */
  function AnalyzeMural(h: Handler, path: string, custom: Option<string>, encode: string -> Option<string>, reply: Reply): (t: Turn)
    ensures encode(path).None? ==> t == Turn(h, None, [], Raised(ImageUnreadable))
    ensures encode(path).Some? ==> t.request == Some(Request(h.model, ChoosePrompt(custom), true, encode(path)))
    ensures t.after.model == h.model && t.after.apiUrl == h.apiUrl && t.after.assistantName == h.assistantName
    ensures t.outcome.Returned? <==> encode(path).Some? && reply.Body? && Parses(reply.lines)
    ensures t.outcome.Returned? ==>
              && t.forwarded == Tokens(reply.lines)
              && t.outcome.text == Concat(t.forwarded)
              && t.after.history == h.history + [Message(SystemRole, ChoosePrompt(custom)), Message(h.assistantName, t.outcome.text)]
    ensures t.outcome.Raised? ==> t.after.history == h.history
    ensures encode(path).Some? && reply.Body? ==> t.forwarded == Tokens(reply.lines[..FirstMalformed(reply.lines)])
    ensures encode(path).Some? && reply.Refused? ==> t.forwarded == [] && t.outcome == Raised(ConnectionFailed)
    ensures encode(path).Some? && reply.Body? && !Parses(reply.lines) ==> t.outcome == Raised(BadFragment)
  {
    match encode(path)
    case None => Turn(h, None, [], Raised(ImageUnreadable))
    case Some(image) =>
      var prompt := ChoosePrompt(custom);
      Respond(h, Request(h.model, prompt, true, Some(image)), reply, h.history + [Message(SystemRole, prompt)])
  }

  /**
   `analyze_and_respond`: `analyze_mural` with the question template, which
   is never empty and so always replaces the default prompt.
   */
  function AnalyzeAndRespond(h: Handler, path: string, message: string, encode: string -> Option<string>, reply: Reply): (t: Turn)
    ensures encode(path).None? ==> t == Turn(h, None, [], Raised(ImageUnreadable))
    ensures encode(path).Some? ==> t.request == Some(Request(h.model, RespondPrompt(message), true, encode(path)))
    ensures t.request.Some? ==> Infix(message, t.request.value.prompt) && t.request.value.prompt != DefaultPrompt
    ensures t.after.model == h.model && t.after.apiUrl == h.apiUrl && t.after.assistantName == h.assistantName
    ensures t.outcome.Returned? <==> encode(path).Some? && reply.Body? && Parses(reply.lines)
    ensures t.outcome.Returned? ==>
              && t.forwarded == Tokens(reply.lines)
              && t.outcome.text == Concat(t.forwarded)
              && t.after.history == h.history + [Message(SystemRole, RespondPrompt(message)), Message(h.assistantName, t.outcome.text)]
    ensures t.outcome.Raised? ==> t.after.history == h.history
    ensures encode(path).Some? && reply.Body? ==> t.forwarded == Tokens(reply.lines[..FirstMalformed(reply.lines)])
    ensures encode(path).Some? && reply.Refused? ==> t.forwarded == [] && t.outcome == Raised(ConnectionFailed)
    ensures encode(path).Some? && reply.Body? && !Parses(reply.lines) ==> t.outcome == Raised(BadFragment)
  {
    QuestionPromptChosen(message);
    AnalyzeMural(h, path, Some(RespondPrompt(message)), encode, reply)
  }

  /**
   `chat`: append the user's entry first, post the serialised history
   including it, stream the reply, and append the assistant's answer only
   when the stream was read to the end.
   */
  function Chat(h: Handler, message: string, dumps: seq<Message> -> string, reply: Reply): (t: Turn)
    ensures t.request == Some(Request(h.model, dumps(h.history + [Message(UserRole, message)]), true, None))
    ensures t.after.model == h.model && t.after.apiUrl == h.apiUrl && t.after.assistantName == h.assistantName
    ensures t.outcome.Returned? <==> reply.Body? && Parses(reply.lines)
    ensures t.outcome.Returned? ==>
              && t.forwarded == Tokens(reply.lines)
              && t.outcome.text == Concat(t.forwarded)
              && t.after.history == h.history + [Message(UserRole, message), Message(h.assistantName, t.outcome.text)]
    ensures t.outcome.Raised? ==> t.after.history == h.history + [Message(UserRole, message)]
    ensures reply.Body? ==> t.forwarded == Tokens(reply.lines[..FirstMalformed(reply.lines)])
    ensures reply.Refused? ==> t.forwarded == [] && t.outcome == Raised(ConnectionFailed)
    ensures reply.Body? && !Parses(reply.lines) ==> t.outcome == Raised(BadFragment)
  {
    var asked := h.(history := h.history + [Message(UserRole, message)]);
    Respond(asked, Request(h.model, dumps(asked.history), true, None), reply, asked.history)
  }

  /** One call a caller can make on the handler, with the reply it gets. */
  datatype Call =
    | AnalyzeCall(path: string, custom: Option<string>, reply: Reply)
    | RespondCall(path: string, message: string, reply: Reply)
    | ChatCall(message: string, reply: Reply)

  function Apply(h: Handler, c: Call, encode: string -> Option<string>, dumps: seq<Message> -> string): Turn {
    match c
    case AnalyzeCall(path, custom, reply) => AnalyzeMural(h, path, custom, encode, reply)
    case RespondCall(path, message, reply) => AnalyzeAndRespond(h, path, message, encode, reply)
    case ChatCall(message, reply) => Chat(h, message, dumps, reply)
  }

  /** A single call keeps the old history as a prefix, adds at most two entries, and keeps the configuration. */
  lemma ApplyAppends(h: Handler, c: Call, encode: string -> Option<string>, dumps: seq<Message> -> string)
    ensures h.history <= Apply(h, c, encode, dumps).after.history
    ensures |Apply(h, c, encode, dumps).after.history| <= |h.history| + 2
    ensures Apply(h, c, encode, dumps).after.model == h.model
    ensures Apply(h, c, encode, dumps).after.apiUrl == h.apiUrl
    ensures Apply(h, c, encode, dumps).after.assistantName == h.assistantName
  {
  }

  /** The handler after a series of calls made one after another. */
  function Session(h: Handler, calls: seq<Call>, encode: string -> Option<string>, dumps: seq<Message> -> string): Handler
    decreases |calls|
  {
    if |calls| == 0 then h
    else Session(Apply(h, calls[0], encode, dumps).after, calls[1..], encode, dumps)
  }

  /**
   The history is append-only across any series of calls, successful or not:
   earlier entries are never changed or removed, each call adds at most two,
   and the model, endpoint and label never change.
   */
  lemma {:induction false} SessionAppendOnly(h: Handler, calls: seq<Call>, encode: string -> Option<string>, dumps: seq<Message> -> string)
    ensures h.history <= Session(h, calls, encode, dumps).history
    ensures |Session(h, calls, encode, dumps).history| <= |h.history| + 2 * |calls|
    ensures Session(h, calls, encode, dumps).model == h.model
    ensures Session(h, calls, encode, dumps).apiUrl == h.apiUrl
    ensures Session(h, calls, encode, dumps).assistantName == h.assistantName
    decreases |calls|
  {
    if |calls| > 0 {
      var next := Apply(h, calls[0], encode, dumps).after;
      ApplyAppends(h, calls[0], encode, dumps);
      SessionAppendOnly(next, calls[1..], encode, dumps);
    }
  }

  /**
   Example: a chat whose reply streams "Hel" and "lo" returns
   "Hello" and leaves the user's entry and one assistant entry "Hello".
   */
  lemma ChatHelloScenario(h: Handler, dumps: seq<Message> -> string)
    ensures Chat(h, "hello", dumps, Body([Response("Hel"), Response("lo"), NoResponse])).outcome == Returned("Hello")
    ensures Chat(h, "hello", dumps, Body([Response("Hel"), Response("lo"), NoResponse])).after.history
            == h.history + [Message(UserRole, "hello"), Message(h.assistantName, "Hello")]
  {
    HelloScenario();
    ReadFaithful([Response("Hel"), Response("lo"), NoResponse]);
  }
}

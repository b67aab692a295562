/**
 The controller logic of `MuralAssistantGUI` (src/gui.py): the flags it keeps,
 the user events that read them, and what each event shows in the chat view
 and dispatches to a worker. Widgets are reduced to the state they carry: the
 enabled flag of the four controls, the busy indicator's visibility, the text
 of the message box, and the chat view as the blocks appended to it.
 */
module Controller {
  import opened Optional
  import opened Stream

  /** The configured assistant label and colour used in the chat header line. */
  datatype Config = Config(assistantName: string, assistantColor: string)

  /** The handler method a worker thread is started on, with its arguments. */
  datatype Job =
    | AnalyzeAndRespond(path: string, message: string)
    | Chat(message: string)
    | AnalyzeMural(path: string)

  datatype Gui = Gui(
    imagePath: Option<string>,   // current_image_path
    imageAnalyzed: bool,         // image_analyzed
    responding: bool,            // is_assistant_responding
    controlsEnabled: bool,       // the buttons and the message box
    spinning: bool,              // the busy indicator is shown
    input: string,               // the message box's text
    display: seq<string>,        // the chat view, block by block
    thread: Option<Job>)         // llm_thread

  /** The window as the constructor leaves it. */
  const Initial := Gui(None, false, false, true, false, "", [], None)

  /** The user events, the worker's tokens and the worker's completion. */
  datatype Event =
    | Send(text: string)                                  // send_message with `text` in the box
    | AnalyzeClicked                                      // analyze_mural
    | Upload(choice: string, decoded: bool, error: string) // upload_image; "" is a cancelled dialog
    | Token(token: string)                                // a streamed token reaches update_chat_display
    | Finished                                            // on_llm_finished

  /** A transition's result: the next state and the job started, if any. */
  datatype Moved = Moved(next: Gui, job: Option<Job>)

  const UploadFirst := "Please upload an image first.\n"
  const EnterMessage := "Please enter a message.\n"
  const AnalyzeLine := "\n<b>You:</b> Analyze this mural\n"
  const LoadError := "Error loading image: "

  function YouLine(message: string): string {
    "\n<b>You:</b> " + message + "\n"
  }

  function Header(cfg: Config): string {
    "<b style='color: " + cfg.assistantColor + ";'>" + cfg.assistantName + ":</b> "
  }

  /** Python truthiness of `current_image_path`: set and not empty. */
  predicate HasImage(g: Gui) {
    g.imagePath.Some? && g.imagePath.value != ""
  }

  /** The characters of the chat view, all blocks run together without breaks between them. */
  function Chars(display: seq<string>): string {
    Concat(display)
  }

  /**
   `update_chat_display`: while the assistant is responding the text goes in
   inline, at the end of the last block; otherwise it starts a new block.
   Either way the view's characters grow by exactly `t`, and nothing else changes.
   */
  function ShowChat(g: Gui, t: string): (r: Gui)
    ensures Chars(r.display) == Chars(g.display) + t
    ensures !g.responding || |g.display| == 0 ==> r.display == g.display + [t]
    ensures g.responding && |g.display| > 0 ==>
              |r.display| == |g.display| && r.display[..|g.display| - 1] == g.display[..|g.display| - 1]
              && r.display[|g.display| - 1] == g.display[|g.display| - 1] + t
    ensures r == g.(display := r.display)
  {
    var n := |g.display|;
    if g.responding && n > 0 then
      var d := g.display[..n - 1] + [g.display[n - 1] + t];
      ExtendLastChars(g.display, t);
      g.(display := d)
    else
      ConcatAppend(g.display, [t]);
      g.(display := g.display + [t])
  }

  /** Extending the last block by `t` extends the view's text by `t`. */
  lemma ExtendLastChars(d: seq<string>, t: string)
    requires |d| > 0
    ensures Chars(d[..|d| - 1] + [d[|d| - 1] + t]) == Chars(d) + t
  {
    var n := |d|;
    ConcatAppend(d[..n - 1], [d[n - 1]]);
    ConcatAppend(d[..n - 1], [d[n - 1] + t]);
    assert d[..n - 1] + [d[n - 1]] == d;
  }

  /** The state a dispatch leaves: busy, controls disabled, indicator shown, worker recorded. */
  function Busy(g: Gui, job: Job): Gui {
    g.(responding := true, spinning := true, controlsEnabled := false, thread := Some(job))
  }

  /**
   `send_message`. Busy or without an image it only shows "Please upload an
   image first." (also when the real cause is that the assistant is busy);
   with an empty box it only shows "Please enter a message."; otherwise it
   echoes the message and the assistant header, clears the box, goes busy and
   starts `analyze_and_respond` for the first message about a newly loaded
   image, `chat` for later ones.
   */
  function SendMessage(cfg: Config, g: Gui, text: string): (m: Moved)
    ensures m.job.Some? <==> !g.responding && HasImage(g) && text != ""
    ensures g.responding || !HasImage(g) ==>
              m.next == ShowChat(g.(input := text), UploadFirst)
    ensures !g.responding && HasImage(g) && text == "" ==>
              m.next == g.(input := text, display := g.display + [EnterMessage])
    ensures m.job.Some? ==>
              && m.job.value == (if g.imageAnalyzed then Chat(text) else AnalyzeAndRespond(g.imagePath.value, text))
              && m.next == Busy(g.(imageAnalyzed := true, input := "", display := g.display + [YouLine(text), Header(cfg)]), m.job.value)
  {
    if !g.responding && HasImage(g) then
      if text != "" then
        var echoed := ShowChat(ShowChat(g.(input := ""), YouLine(text)), Header(cfg));
        var job := if !g.imageAnalyzed then AnalyzeAndRespond(g.imagePath.value, text) else Chat(text);
        Moved(Busy(echoed.(imageAnalyzed := true), job), Some(job))
      else
        Moved(ShowChat(g.(input := text), EnterMessage), None)
    else
      Moved(ShowChat(g.(input := text), UploadFirst), None)
  }

  /**
   `analyze_mural`: ignored while busy; without an image it only shows
   "Please upload an image first."; otherwise it echoes the request, goes
   busy, starts `analyze_mural` on the current image and marks it analysed.
   */
  function AnalyzeMuralClicked(cfg: Config, g: Gui): (m: Moved)
    ensures g.responding ==> m == Moved(g, None)
    ensures !g.responding && !HasImage(g) ==> m == Moved(g.(display := g.display + [UploadFirst]), None)
    ensures m.job.Some? <==> !g.responding && HasImage(g)
    ensures m.job.Some? ==>
              && m.job.value == AnalyzeMural(g.imagePath.value)
              && m.next == Busy(g.(imageAnalyzed := true, display := g.display + [AnalyzeLine, Header(cfg)]), m.job.value)
  {
    if !g.responding then
      if HasImage(g) then
        var echoed := ShowChat(ShowChat(g, AnalyzeLine), Header(cfg));
        var job := AnalyzeMural(g.imagePath.value);
        Moved(Busy(echoed, job).(imageAnalyzed := true), Some(job))
      else
        Moved(ShowChat(g, UploadFirst), None)
    else
      Moved(g, None)
  }

  /**
   `on_llm_finished`: no longer busy, indicator hidden, a line break started
   as a new block, controls enabled and the worker forgotten.
   */
  function LlmFinished(g: Gui): (r: Gui)
    ensures !r.responding && r.controlsEnabled && !r.spinning && r.thread.None?
    ensures r.display == g.display + ["\n"]
    ensures r.imagePath == g.imagePath && r.imageAnalyzed == g.imageAnalyzed && r.input == g.input
  {
    ShowChat(g.(responding := false, spinning := false), "\n").(controlsEnabled := true, thread := None)
  }

  /**
   `upload_image`: ignored while busy or when the dialog is cancelled. A
   chosen path always becomes the current image; only an image that decodes
   resets `image_analyzed`, while one that does not shows the reader's error.
   */
  function UploadImage(g: Gui, choice: string, decoded: bool, error: string): (r: Gui)
    ensures g.responding || choice == "" ==> r == g
    ensures !g.responding && choice != "" ==> r.imagePath == Some(choice)
    ensures !g.responding && choice != "" && decoded ==> r == g.(imagePath := Some(choice), imageAnalyzed := false)
    ensures !g.responding && choice != "" && !decoded ==>
              r == g.(imagePath := Some(choice), display := g.display + [LoadError + error])
  {
    if !g.responding && choice != "" then
      var chosen := g.(imagePath := Some(choice));
      if !decoded then chosen.(display := chosen.display + [LoadError + error])
      else chosen.(imageAnalyzed := false)
    else
      g
  }

  /** The window's response to one event. */
  function Step(cfg: Config, g: Gui, e: Event): Moved {
    match e
    case Send(text) => SendMessage(cfg, g, text)
    case AnalyzeClicked => AnalyzeMuralClicked(cfg, g)
    case Upload(choice, decoded, error) => Moved(UploadImage(g, choice, decoded, error), None)
    case Token(t) => Moved(ShowChat(g, t), None)
    case Finished => Moved(LlmFinished(g), None)
  }

  /** The state after a series of events. */
  function Run(cfg: Config, g: Gui, es: seq<Event>): Gui
    decreases |es|
  {
    if |es| == 0 then g else Run(cfg, Step(cfg, g, es[0]).next, es[1..])
  }

  /** The jobs started during a series of events, in order. */
  function Dispatched(cfg: Config, g: Gui, es: seq<Event>): seq<Job>
    decreases |es|
  {
    if |es| == 0 then []
    else
      var m := Step(cfg, g, es[0]);
      (if m.job.Some? then [m.job.value] else []) + Dispatched(cfg, m.next, es[1..])
  }

  /** How many completion events a series holds. */
  function Completions(es: seq<Event>): nat {
    if |es| == 0 then 0 else (if es[0].Finished? then 1 else 0) + Completions(es[1..])
  }

  /**
   What the window keeps consistent: busy exactly while a worker is recorded,
   controls enabled and indicator hidden exactly when idle, an analysed flag
   only with an image, busy only after the image was marked analysed, an
   image-carrying job always about the current image, and a current path that
   is never empty.
   */
  predicate Consistent(g: Gui) {
    && (g.responding <==> g.thread.Some?)
    && g.controlsEnabled == !g.responding
    && g.spinning == g.responding
    && (g.imageAnalyzed ==> HasImage(g))
    && (g.responding ==> g.imageAnalyzed)
    && (g.thread.Some? && !g.thread.value.Chat? ==> g.imagePath == Some(g.thread.value.path))
    && (g.imagePath.Some? ==> g.imagePath.value != "")
  }

  lemma StepConsistent(cfg: Config, g: Gui, e: Event)
    requires Consistent(g)
    ensures Consistent(Step(cfg, g, e).next)
  {
  }

  /** Every state reachable from the freshly built window is consistent. */
  lemma {:induction false} RunConsistent(cfg: Config, g: Gui, es: seq<Event>)
    requires Consistent(g)
    ensures Consistent(Run(cfg, g, es))
    decreases |es|
  {
    if |es| > 0 {
      StepConsistent(cfg, g, es[0]);
      RunConsistent(cfg, Step(cfg, g, es[0]).next, es[1..]);
    }
  }

  lemma ReachableConsistent(cfg: Config, es: seq<Event>)
    ensures Consistent(Run(cfg, Initial, es))
  {
    RunConsistent(cfg, Initial, es);
  }

  /**
   A job is only started from an idle window, and starting it makes the
   window busy with that job recorded; no other event changes the busy flag
   except completion.
   */
  lemma DispatchOnlyWhenIdle(cfg: Config, g: Gui, e: Event)
    ensures Step(cfg, g, e).job.Some? ==>
              !g.responding && Step(cfg, g, e).next.responding && Step(cfg, g, e).next.thread == Step(cfg, g, e).job
    ensures Step(cfg, g, e).job.None? && !e.Finished? ==> Step(cfg, g, e).next.responding == g.responding
    ensures e.Finished? ==> !Step(cfg, g, e).next.responding
  {
  }

  /**
   At most one request is in flight: over any series of events, the jobs
   started never outnumber the completions, plus one if the window started
   idle.
   */
  lemma {:induction false} AtMostOneInFlight(cfg: Config, g: Gui, es: seq<Event>)
    ensures |Dispatched(cfg, g, es)| <= Completions(es) + (if g.responding then 0 else 1)
    decreases |es|
  {
    if |es| > 0 {
      DispatchOnlyWhenIdle(cfg, g, es[0]);
      AtMostOneInFlight(cfg, Step(cfg, g, es[0]).next, es[1..]);
    }
  }

  /** While busy, a series without a completion starts nothing and stays busy. */
  lemma {:induction false} BusyStartsNothing(cfg: Config, g: Gui, es: seq<Event>)
    requires g.responding
    requires Completions(es) == 0
    ensures Dispatched(cfg, g, es) == []
    ensures Run(cfg, g, es).responding
    decreases |es|
  {
    if |es| > 0 {
      DispatchOnlyWhenIdle(cfg, g, es[0]);
      BusyStartsNothing(cfg, Step(cfg, g, es[0]).next, es[1..]);
    }
  }

  /**
   The first accepted message after an image loads asks for analysis plus an
   answer; after that request completes, the next message is plain chat.
   */
  lemma FirstMessageAnalyzesThenChats(cfg: Config, g: Gui, path: string, err: string, first: string, second: string)
    requires !g.responding && path != "" && first != "" && second != ""
    ensures Dispatched(cfg, g, [Upload(path, true, err), Send(first), Finished, Send(second)])
            == [AnalyzeAndRespond(path, first), Chat(second)]
  {
    var es := [Upload(path, true, err), Send(first), Finished, Send(second)];
    var g1 := UploadImage(g, path, true, err);
    var m2 := SendMessage(cfg, g1, first);
    var g3 := LlmFinished(m2.next);
    var m4 := SendMessage(cfg, g3, second);
    assert m2.job == Some(AnalyzeAndRespond(path, first));
    assert m4.job == Some(Chat(second));
    assert es[1..] == [Send(first), Finished, Send(second)];
    assert es[1..][1..] == [Finished, Send(second)];
    assert es[1..][1..][1..] == [Send(second)];
    assert Dispatched(cfg, g3, [Send(second)]) == [Chat(second)];
    assert Dispatched(cfg, m2.next, [Finished, Send(second)]) == [Chat(second)];
    assert Dispatched(cfg, g1, es[1..]) == [AnalyzeAndRespond(path, first), Chat(second)];
  }

  /**
   An image that fails to decode still becomes the current path but keeps
   the analysed flag, so the next message after an analysed image is sent as
   plain chat rather than a fresh analysis.
   */
  lemma FailedLoadKeepsAnalysis(cfg: Config, g: Gui, path: string, err: string, message: string)
    requires !g.responding && g.imageAnalyzed && path != "" && message != ""
    ensures Run(cfg, g, [Upload(path, false, err)]).imagePath == Some(path)
    ensures Dispatched(cfg, g, [Upload(path, false, err), Send(message)]) == [Chat(message)]
  {
    var es := [Upload(path, false, err), Send(message)];
    var g1 := UploadImage(g, path, false, err);
    assert g1.imageAnalyzed && HasImage(g1) && !g1.responding;
    assert es[1..] == [Send(message)];
    assert Dispatched(cfg, g1, [Send(message)]) == [Chat(message)];
  }

  /** An accepted message leaves the window busy with the message and the header echoed. */
  lemma AcceptedSendEchoes(cfg: Config, g: Gui, text: string)
    requires !g.responding && HasImage(g) && text != ""
    ensures Step(cfg, g, Send(text)).next.responding
    ensures Step(cfg, g, Send(text)).next.display == g.display + [YouLine(text), Header(cfg)]
  {
  }

  /** Running a series that starts with `e` is taking `e`'s step, then running the rest. */
  lemma RunCons(cfg: Config, g: Gui, e: Event, es: seq<Event>)
    ensures Run(cfg, g, [e] + es) == Run(cfg, Step(cfg, g, e).next, es)
  {
    assert ([e] + es)[1..] == es;
  }

  /** The tokens streamed during a request, in order. */
  function TokenEvents(ts: seq<string>): (es: seq<Event>)
    ensures |es| == |ts|
    ensures forall i | 0 <= i < |ts| :: es[i] == Token(ts[i])
  {
    if |ts| == 0 then [] else [Token(ts[0])] + TokenEvents(ts[1..])
  }

  /**
   While busy, streamed tokens are written inline after the last block: the
   blocks before it are untouched and the last one gains the tokens'
   concatenation.
   */
  lemma {:induction false} TokensJoinLastBlock(cfg: Config, g: Gui, ts: seq<string>)
    requires g.responding && |g.display| > 0
    ensures var r := Run(cfg, g, TokenEvents(ts));
            && r.responding
            && |r.display| == |g.display|
            && r.display[..|g.display| - 1] == g.display[..|g.display| - 1]
            && r.display[|g.display| - 1] == g.display[|g.display| - 1] + Concat(ts)
    decreases |ts|
  {
    if |ts| == 0 {
    } else {
      var g' := ShowChat(g, ts[0]);
      var es := TokenEvents(ts);
      assert es[0] == Token(ts[0]);
      assert es[1..] == TokenEvents(ts[1..]);
      assert Step(cfg, g, es[0]).next == g';
      assert Run(cfg, g, es) == Run(cfg, g', TokenEvents(ts[1..]));
      TokensJoinLastBlock(cfg, g', ts[1..]);
      assert Concat(ts) == ts[0] + Concat(ts[1..]);
    }
  }

  /** The blocks-level form of `TokensJoinLastBlock`, for a view ending in `last`. */
  lemma TokensExtendBlock(cfg: Config, g: Gui, pre: seq<string>, last: string, ts: seq<string>)
    requires g.responding && g.display == pre + [last]
    ensures Run(cfg, g, TokenEvents(ts)).display == pre + [last + Concat(ts)]
  {
    TokensJoinLastBlock(cfg, g, ts);
    var d := Run(cfg, g, TokenEvents(ts)).display;
    var n := |g.display|;
    assert g.display[..n - 1] == pre;
    assert d == d[..n - 1] + [d[n - 1]];
  }

  /**
   The answer to an accepted message appears right after the assistant's
   header: the view ends with the echoed message and then a block holding
   the header followed by every token streamed so far.
   */
  lemma AnswerFollowsHeader(cfg: Config, g: Gui, text: string, ts: seq<string>)
    requires !g.responding && HasImage(g) && text != ""
    ensures var r := Run(cfg, g, [Send(text)] + TokenEvents(ts));
            r.display == g.display + [YouLine(text), Header(cfg) + Concat(ts)]
  {
    var g1 := Step(cfg, g, Send(text)).next;
    RunCons(cfg, g, Send(text), TokenEvents(ts));
    AcceptedSendEchoes(cfg, g, text);
    var pre, header := g.display + [YouLine(text)], Header(cfg);
    assert g1.display == pre + [header];
    TokensExtendBlock(cfg, g1, pre, header, ts);
  }
}

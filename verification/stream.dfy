/**
 The line-by-line reading loop shared by `LLMHandler.analyze_mural` and
 `LLMHandler.chat` (src/llm_handler.py). The HTTP body is abstracted as the
 sequence of lines `iter_lines` yields, each already classified by what
 `json.loads` and the `"response" in data` test make of it.
 */
module Stream {

  /** One line of the streamed response body. */
  datatype Fragment =
    | Blank                   // an empty line, skipped before parsing
    | Malformed               // a line on which parsing raises
    | NoResponse              // a valid object without a "response" key
    | Response(token: string) // a valid object whose "response" value is `token`

  /** The tokens one fragment contributes: its response value, if it has one. */
  function TokenOf(f: Fragment): seq<string> {
    if f.Response? then [f.token] else []
  }

  /** Reference definition: the response values of the fragments that carry one, in order. */
  function Tokens(body: seq<Fragment>): seq<string> {
    if |body| == 0 then [] else TokenOf(body[0]) + Tokens(body[1..])
  }

  /** The concatenation of a sequence of strings. */
  function Concat(ts: seq<string>): string {
    if |ts| == 0 then "" else ts[0] + Concat(ts[1..])
  }

  /** No line of the body makes the parser raise. */
  predicate Parses(body: seq<Fragment>) {
    forall i | 0 <= i < |body| :: !body[i].Malformed?
  }

  /** Index of the first malformed line, or `|body|` when there is none. */
  function FirstMalformed(body: seq<Fragment>): (k: nat)
    ensures k <= |body|
    ensures forall i | 0 <= i < k :: !body[i].Malformed?
    ensures k < |body| ==> body[k].Malformed?
  {
    if |body| == 0 then 0
    else if body[0].Malformed? then 0
    else 1 + FirstMalformed(body[1..])
  }

  /**
   The state of the reading loop: the tokens emitted to the sink so far, the
   `full_response` accumulator, and whether parsing has raised (which ends
   the loop and the call).
   */
  datatype Reader = Reader(forwarded: seq<string>, text: string, raised: bool)

  /** The loop state before the first line: nothing sent, `full_response = ""`. */
  const Start := Reader([], "", false)

  /** One iteration of the loop over a line. */
  function Feed(r: Reader, f: Fragment): (r': Reader)
    ensures r.raised ==> r' == r
    ensures !r.raised && f.Malformed? ==> r'.raised && r'.forwarded == r.forwarded
    ensures !r.raised && !f.Malformed? ==>
              !r'.raised && r'.forwarded == r.forwarded + TokenOf(f)
              && r'.text == r.text + Concat(TokenOf(f))
  {
    if r.raised then r
    else
      match f
      case Blank => r
      case NoResponse => r
      case Malformed => r.(raised := true)
      case Response(t) => Reader(r.forwarded + [t], r.text + t, false)
  }

  /** The loop run from state `r` over `body`, line by line. */
  function FeedAll(r: Reader, body: seq<Fragment>): Reader
    decreases |body|
  {
    if |body| == 0 then r
    else Feed(FeedAll(r, body[..|body| - 1]), body[|body| - 1])
  }

  /** The whole loop over a response body. */
  function Read(body: seq<Fragment>): Reader {
    FeedAll(Start, body)
  }

  lemma {:induction false} TokensAppend(a: seq<Fragment>, b: seq<Fragment>)
    ensures Tokens(a + b) == Tokens(a) + Tokens(b)
    decreases |a|
  {
    if |a| == 0 {
      assert a + b == b;
    } else {
      assert (a + b)[1..] == a[1..] + b;
      TokensAppend(a[1..], b);
    }
  }

  lemma {:induction false} ConcatAppend(a: seq<string>, b: seq<string>)
    ensures Concat(a + b) == Concat(a) + Concat(b)
    decreases |a|
  {
    if |a| == 0 {
      assert a + b == b;
    } else {
      assert (a + b)[1..] == a[1..] + b;
      ConcatAppend(a[1..], b);
    }
  }

  /** The fold over a body with one more line is one more iteration. */
  lemma ReadSnoc(init: seq<Fragment>, last: Fragment)
    ensures Read(init + [last]) == Feed(Read(init), last)
  {
  }

  /** The contract of `FirstMalformed` pins down a single index. */
  lemma FirstMalformedUnique(body: seq<Fragment>, k: nat)
    requires k <= |body|
    requires forall i | 0 <= i < k :: !body[i].Malformed?
    requires k < |body| ==> body[k].Malformed?
    ensures FirstMalformed(body) == k
  {
  }

  /** The three facts of `ReadFaithful` about a body. */
  predicate Faithful(body: seq<Fragment>) {
    && Read(body).text == Concat(Read(body).forwarded)
    && (Read(body).raised <==> !Parses(body))
    && Read(body).forwarded == Tokens(body[..FirstMalformed(body)])
  }

  /** A line after a raise leaves the facts intact. */
  lemma FaithfulAfterRaise(init: seq<Fragment>, last: Fragment)
    requires Faithful(init) && Read(init).raised
    ensures Faithful(init + [last])
  {
    var body := init + [last];
    ReadSnoc(init, last);
    var k := FirstMalformed(init);
    assert init[k] == body[k];
    FirstMalformedUnique(body, k);
    assert body[..k] == init[..k];
  }

  /** A malformed line after a clean prefix raises, forwarding nothing more. */
  lemma FaithfulAtMalformed(init: seq<Fragment>)
    requires Faithful(init) && !Read(init).raised
    ensures Faithful(init + [Malformed])
  {
    var body := init + [Malformed];
    ReadSnoc(init, Malformed);
    FirstMalformedUnique(body, |init|);
    assert init[..FirstMalformed(init)] == init;
    assert body[..|init|] == init;
  }

  /** Adding a line at the end adds that line's response value, if any. */
  lemma TokensSnoc(init: seq<Fragment>, last: Fragment)
    ensures Tokens(init + [last]) == Tokens(init) + TokenOf(last)
  {
    TokensAppend(init, [last]);
    assert Tokens([last]) == TokenOf(last) + Tokens([]);
  }

  /** A clean prefix followed by a line that parses is clean. */
  lemma ParsesSnoc(init: seq<Fragment>, last: Fragment)
    requires Parses(init) && !last.Malformed?
    ensures Parses(init + [last])
  {
  }

  /** Any other line after a clean prefix forwards its response value, if any. */
  lemma FaithfulAtParsed(init: seq<Fragment>, last: Fragment)
    requires Faithful(init) && !Read(init).raised && !last.Malformed?
    ensures Faithful(init + [last])
  {
    var body := init + [last];
    var r := Read(init);
    ReadSnoc(init, last);
    var r' := Read(body);
    assert r' == Feed(r, last);
    assert init[..FirstMalformed(init)] == init;
    assert r.forwarded == Tokens(init);
    ConcatAppend(r.forwarded, TokenOf(last));
    assert r'.text == Concat(r'.forwarded);
    ParsesSnoc(init, last);
    FirstMalformedUnique(body, |body|);
    assert body[..FirstMalformed(body)] == body;
    TokensSnoc(init, last);
    assert r'.forwarded == Tokens(body);
  }

  /**
   The loop does what the reference definitions say: the text accumulated is
   the concatenation of the tokens forwarded; the loop raises exactly when some
   line is malformed; and the tokens forwarded are the response values of the
   lines before the first malformed one (all of them when none is).
   */
  lemma {:induction false} ReadFaithful(body: seq<Fragment>)
    ensures Read(body).text == Concat(Read(body).forwarded)
    ensures Read(body).raised <==> !Parses(body)
    ensures Read(body).forwarded == Tokens(body[..FirstMalformed(body)])
    decreases |body|
  {
    if |body| > 0 {
      var init, last := body[..|body| - 1], body[|body| - 1];
      assert body == init + [last];
      ReadFaithful(init);
      if Read(init).raised {
        FaithfulAfterRaise(init, last);
      } else if last.Malformed? {
        FaithfulAtMalformed(init);
      } else {
        FaithfulAtParsed(init, last);
      }
    }
  }

  /** The loop can be split at any line: reading `a + b` reads `a`, then `b`. */
  lemma {:induction false} FeedAllAppend(r: Reader, a: seq<Fragment>, b: seq<Fragment>)
    ensures FeedAll(r, a + b) == FeedAll(FeedAll(r, a), b)
    decreases |b|
  {
    if |b| == 0 {
      assert a + b == a;
    } else {
      assert (a + b)[..|a + b| - 1] == a + b[..|b| - 1];
      FeedAllAppend(r, a, b[..|b| - 1]);
    }
  }

  /** Once parsing has raised, no later line changes anything. */
  lemma {:induction false} RaisedIsFinal(r: Reader, b: seq<Fragment>)
    requires r.raised
    ensures FeedAll(r, b) == r
    decreases |b|
  {
    if |b| > 0 {
      RaisedIsFinal(r, b[..|b| - 1]);
    }
  }

  /**
   Blank lines and objects without a response value are invisible: removing
   one from anywhere in the body changes neither the tokens forwarded, nor the
   text, nor whether the call raises.
   */
  lemma SkippedLineInvisible(a: seq<Fragment>, f: Fragment, b: seq<Fragment>)
    requires f.Blank? || f.NoResponse?
    ensures Read(a + [f] + b) == Read(a + b)
  {
    FeedAllAppend(Start, a + [f], b);
    FeedAllAppend(Start, a, [f]);
    FeedAllAppend(Start, a, b);
    assert FeedAll(Read(a), [f]) == Feed(FeedAll(Read(a), []), f);
  }

  /**
   Tokens already forwarded are never retracted: the tokens sent while reading
   a prefix of the body are a prefix of those sent for the whole body, and a
   prefix that raised is the whole story.
   */
  lemma ForwardedNeverRetracted(a: seq<Fragment>, b: seq<Fragment>)
    ensures Read(a).forwarded <= Read(a + b).forwarded
    ensures Read(a).raised ==> Read(a + b) == Read(a)
  {
    FeedAllAppend(Start, a, b);
    if Read(a).raised {
      RaisedIsFinal(Read(a), b);
    } else {
      ReadFaithful(a);
      ReadFaithful(a + b);
      TokensAppend(a, b);
      var k := FirstMalformed(a + b);
      assert Parses(a);
      assert FirstMalformed(a) == |a| && a[..|a|] == a;
      assert (a + b)[..k] == a + b[..k - |a|];
      TokensAppend(a, b[..k - |a|]);
    }
  }

  /**
   Example: two response lines "Hel" and "lo" followed by a closing
   object without a response value forward "Hel" then "lo" and accumulate
   "Hello".
   */
  lemma HelloScenario()
    ensures Read([Response("Hel"), Response("lo"), NoResponse]) == Reader(["Hel", "lo"], "Hello", false)
  {
    var body := [Response("Hel"), Response("lo"), NoResponse];
    assert body[..2][..1] == [Response("Hel")];
    assert body[..2] == [Response("Hel"), Response("lo")];
    assert [Response("Hel")][..0] == [];
    assert Read([Response("Hel")]) == Reader(["Hel"], "Hel", false);
    assert Read(body[..2]) == Reader(["Hel", "lo"], "Hello", false);
  }

  /**
   The loop as the source writes it: iterate over the lines, skip the blank
   ones, stop with a failure at a malformed one, and forward and accumulate
   every response value.
   */
  method ReadLines(body: seq<Fragment>) returns (forwarded: seq<string>, text: string, ok: bool)
    ensures ok <==> Parses(body)
    ensures forwarded == Tokens(body[..FirstMalformed(body)])
    ensures ok ==> text == Concat(forwarded)
    ensures Read(body) == Reader(forwarded, text, !ok)
  {
    forwarded, text := [], "";
    var i := 0;
    while i < |body|
      invariant 0 <= i <= |body|
      invariant Parses(body[..i])
      invariant Reader(forwarded, text, false) == Read(body[..i])
    {
      assert body[..i + 1][..i] == body[..i];
      match body[i] {
        case Blank =>
        case NoResponse =>
        case Malformed =>
          assert Read(body[..i + 1]).raised;
          FeedAllAppend(Start, body[..i + 1], body[i + 1..]);
          assert body[..i + 1] + body[i + 1..] == body;
          RaisedIsFinal(Read(body[..i + 1]), body[i + 1..]);
          ReadFaithful(body);
          return forwarded, text, false;
        case Response(t) =>
          forwarded := forwarded + [t];
          text := text + t;
      }
      i := i + 1;
    }
    assert body[..i] == body;
    ReadFaithful(body);
    ok := true;
  }
}

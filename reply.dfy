/**
 * `generate_response_stream` (model.py:245-324): one attempt samples at most
 * 200 tokens, classifies each as a turn boundary, a reaction or text, and
 * yields stripped text segments and lone reactions; an attempt that yields
 * nothing is answered with "Hey" in auto-start mode and retried otherwise.
 */
module Reply {
  import opened Wrappers
  import opened Text
  import opened ContextWindow

  /** `max_tokens`, the cap on the tokens one attempt samples. */
  const MaxTokens: nat := 200

  /** The markers at which the accumulated text is flushed (model.py:282-287). */
  predicate IsBoundary(token: string) {
    token == Me || token == Them || token == EndOfText || token == ConversationStart
  }

  /** The boundary markers after which the attempt stops: every one except `<|Me|>`. */
  predicate IsStop(token: string) {
    token == Them || token == EndOfText || token == ConversationStart
  }

  /** The six reaction tokens of model.py:297-304. */
  const Reactions: seq<string> :=
    ["<|Liked|>", "<|Laughed at|>", "<|Loved|>", "<|Disliked|>", "<|Questioned|>", "<|Emphasized|>"]

  predicate IsReaction(token: string) {
    token in Reactions
  }

  /** How the loop of model.py:280-310 treats a sampled token. */
  datatype Kind = Boundary(stop: bool) | Reaction | Text

  function Classify(token: string): (k: Kind)
    ensures k.Boundary? <==> IsBoundary(token)
    ensures k.Boundary? ==> (k.stop <==> IsStop(token))
    ensures k.Reaction? <==> !IsBoundary(token) && IsReaction(token)
  {
    if IsBoundary(token) then Boundary(IsStop(token))
    else if IsReaction(token) then Reaction
    else Text
  }

  /** The segments an attempt yields, and the buffer and draw count it leaves behind. */
  datatype Attempt = Attempt(segments: seq<string>, buf: seq<TokenId>, draws: nat)

  /** The closing `if current_response.strip(): yield current_response.strip()`. */
  function Flush(acc: string, out: seq<string>): (r: seq<string>)
    ensures Strip(acc) != [] ==> r == out + [Strip(acc)]
    ensures Strip(acc) == [] ==> r == out
  {
    if Strip(acc) != [] then out + [Strip(acc)] else out
  }

  /** The effect of one sampled token on the accumulated text and the output, and whether the loop stops. */
  datatype Step = Step(acc: string, out: seq<string>, stop: bool)

  function StepOn(token: string, acc: string, out: seq<string>): Step {
    match Classify(token)
    case Boundary(stop) => Step(if Strip(acc) != [] then "" else acc, Flush(acc, out), stop)
    case Reaction => Step(acc, out + [token], false)
    case Text => Step(acc + token, out, false)
  }

  /**
   * The rest of an attempt from step `i`, with `acc` the text gathered since
   * the last flush and `out` what has been yielded so far.
   */
  function AttemptFrom(sample: Sampler, decode: seq<TokenId> -> string, buf: seq<TokenId>, draw: nat,
                       i: nat, acc: string, out: seq<string>): Attempt
    decreases MaxTokens - i
  {
    if i >= MaxTokens then Attempt(Flush(acc, out), buf, draw)
    else
      var id := sample(buf, draw);
      var st := StepOn(decode([id]), acc, out);
      if st.stop then Attempt(Flush(st.acc, st.out), Push(buf, id), draw + 1)
      else AttemptFrom(sample, decode, Push(buf, id), draw + 1, i + 1, st.acc, st.out)
  }

  /** One whole attempt from a freshly primed buffer. */
  function RunAttempt(sample: Sampler, decode: seq<TokenId> -> string, buf: seq<TokenId>, draw: nat): Attempt {
    AttemptFrom(sample, decode, buf, draw, 0, "", [])
  }

  /** A yielded segment is a lone reaction token or stripped, non-blank text. */
  predicate IsSegment(s: string) {
    IsReaction(s) || IsTrimmed(s)
  }

  predicate AllSegments(ss: seq<string>) {
    forall j :: 0 <= j < |ss| ==> IsSegment(ss[j])
  }

  /** `a` is an initial part of `b`: what was yielded stays yielded, in order. */
  predicate IsPrefix(a: seq<string>, b: seq<string>) {
    |a| <= |b| && forall j :: 0 <= j < |a| ==> b[j] == a[j]
  }

  lemma FlushProperties(acc: string, out: seq<string>)
    ensures IsPrefix(out, Flush(acc, out)) && |Flush(acc, out)| <= |out| + 1
    ensures AllSegments(out) ==> AllSegments(Flush(acc, out))
  {
  }

  /**
   * A step appends at most one segment and keeps the output well formed; a
   * reaction is yielded alone and leaves the accumulated text as it was; text
   * is only appended; a stop leaves nothing to flush.
   */
  lemma StepProperties(token: string, acc: string, out: seq<string>)
    ensures var st := StepOn(token, acc, out);
      && IsPrefix(out, st.out) && |st.out| <= |out| + 1
      && (AllSegments(out) ==> AllSegments(st.out))
      && (IsReaction(token) && !IsBoundary(token) ==> st.acc == acc && st.out == out + [token])
      && (!IsReaction(token) && !IsBoundary(token) ==> st.acc == acc + token && st.out == out)
      && (st.stop ==> Flush(st.acc, st.out) == st.out)
  {
    FlushProperties(acc, out);
  }

  /**
   * What an attempt yields extends what was yielded before, and every
   * segment is well formed.
   */
  lemma {:induction false} AttemptYields(sample: Sampler, decode: seq<TokenId> -> string, buf: seq<TokenId>,
                                         draw: nat, i: nat, acc: string, out: seq<string>)
    requires i <= MaxTokens
    ensures var r := AttemptFrom(sample, decode, buf, draw, i, acc, out);
      && IsPrefix(out, r.segments)
      && (AllSegments(out) ==> AllSegments(r.segments))
    decreases MaxTokens - i
  {
    FlushProperties(acc, out);
    if i < MaxTokens {
      var id := sample(buf, draw);
      var st := StepOn(decode([id]), acc, out);
      StepProperties(decode([id]), acc, out);
      if !st.stop {
        AttemptYields(sample, decode, Push(buf, id), draw + 1, i + 1, st.acc, st.out);
      }
    }
  }

  /**
   * An attempt samples at most MaxTokens - i tokens, and yields at most one
   * segment per sampled token plus the final flush.
   */
  lemma {:induction false} AttemptCounts(sample: Sampler, decode: seq<TokenId> -> string, buf: seq<TokenId>,
                                         draw: nat, i: nat, acc: string, out: seq<string>)
    requires i <= MaxTokens
    ensures var r := AttemptFrom(sample, decode, buf, draw, i, acc, out);
      && draw <= r.draws <= draw + (MaxTokens - i)
      && |r.segments| <= |out| + (r.draws - draw) + 1
    decreases MaxTokens - i
  {
    FlushProperties(acc, out);
    if i < MaxTokens {
      var id := sample(buf, draw);
      var st := StepOn(decode([id]), acc, out);
      StepProperties(decode([id]), acc, out);
      if !st.stop {
        AttemptCounts(sample, decode, Push(buf, id), draw + 1, i + 1, st.acc, st.out);
      }
    }
  }

  /** An attempt started within the context length leaves its buffer within it. */
  lemma {:induction false} AttemptBufBound(sample: Sampler, decode: seq<TokenId> -> string, buf: seq<TokenId>,
                                           draw: nat, i: nat, acc: string, out: seq<string>)
    requires i <= MaxTokens && |buf| <= ContextLength
    ensures |AttemptFrom(sample, decode, buf, draw, i, acc, out).buf| <= ContextLength
    decreases MaxTokens - i
  {
    if i < MaxTokens {
      var id := sample(buf, draw);
      var st := StepOn(decode([id]), acc, out);
      PushKeepsRecent(buf, id);
      if !st.stop {
        AttemptBufBound(sample, decode, Push(buf, id), draw + 1, i + 1, st.acc, st.out);
      }
    }
  }

  /** The context the attempt is primed with (model.py:266-271). */
  function Context(history: string, message: string, autoStart: bool, autoStartPrompt: Option<string>): (r: string)
    ensures autoStart && autoStartPrompt.Some? && autoStartPrompt.value != [] ==> r == autoStartPrompt.value
    ensures !(autoStart && autoStartPrompt.Some? && autoStartPrompt.value != []) ==>
      StartsWith(r, history) && EndsWith(r, Me) && r[|history|..] == Them + message + Me
  {
    if autoStart && autoStartPrompt.Some? && autoStartPrompt.value != [] then autoStartPrompt.value
    else history + Them + message + Me
  }

  /** The result of a whole call: `exhausted` when the retry budget ran out before anything was yielded. */
  datatype Outcome = Outcome(segments: seq<string>, buf: seq<TokenId>, draws: nat, exhausted: bool)

  /**
   * The whole generator. The source retries without bound; `fuel` is the
   * number of retries the model allows. A retry is a fresh call with the same
   * history and message and auto-start off (model.py:322-324).
   */
  function Reply(sample: Sampler, encode: string -> seq<TokenId>, decode: seq<TokenId> -> string,
                 history: string, message: string, autoStart: bool, autoStartPrompt: Option<string>,
                 draw: nat, fuel: nat): Outcome
  {
    var first := RunAttempt(sample, decode, Truncate(encode(Context(history, message, autoStart, autoStartPrompt))), draw);
    AfterAttempt(first, autoStart, Retry(sample, encode, decode, history, message), fuel)
  }

  /** The attempt a retry makes, given the draw count it starts from. */
  function Retry(sample: Sampler, encode: string -> seq<TokenId>, decode: seq<TokenId> -> string,
                 history: string, message: string): nat -> Attempt
  {
    (d: nat) => RunAttempt(sample, decode, Truncate(encode(Context(history, message, false, None))), d)
  }

  /** The empty-output policy once an attempt is over (model.py:312-324). */
  function AfterAttempt(a: Attempt, autoStart: bool, retry: nat -> Attempt, fuel: nat): Outcome
    decreases fuel
  {
    if a.segments != [] then Outcome(a.segments, a.buf, a.draws, false)
    else if autoStart then Outcome(["Hey"], a.buf, a.draws, false)
    else if fuel == 0 then Outcome([], a.buf, a.draws, true)
    else AfterAttempt(retry(a.draws), false, retry, fuel - 1)
  }

  /** The facts about the segments of one call, written once for both lemmas below. */
  predicate WellFormedOutcome(o: Outcome) {
    && (o.exhausted <==> o.segments == [])
    && (forall j :: 0 <= j < |o.segments| ==> IsSegment(o.segments[j]) || o.segments[j] == "Hey")
    && |o.buf| <= ContextLength
  }

  lemma {:induction false} AfterAttemptSegments(a: Attempt, autoStart: bool, retry: nat -> Attempt, fuel: nat)
    requires AllSegments(a.segments) && |a.buf| <= ContextLength
    requires forall d :: AllSegments(retry(d).segments) && |retry(d).buf| <= ContextLength
    ensures WellFormedOutcome(AfterAttempt(a, autoStart, retry, fuel))
    decreases fuel
  {
    if a.segments == [] && !autoStart && fuel > 0 {
      AfterAttemptSegments(retry(a.draws), false, retry, fuel - 1);
    }
  }

  /**
   * A call that does not run out of retries yields at least one segment, each
   * a reaction, stripped non-blank text, or the fallback "Hey".
   */
  lemma ReplySegments(sample: Sampler, encode: string -> seq<TokenId>, decode: seq<TokenId> -> string,
                      history: string, message: string, autoStart: bool,
                      autoStartPrompt: Option<string>, draw: nat, fuel: nat)
    ensures WellFormedOutcome(Reply(sample, encode, decode, history, message, autoStart, autoStartPrompt, draw, fuel))
  {
    var buf := Truncate(encode(Context(history, message, autoStart, autoStartPrompt)));
    var retryBuf := Truncate(encode(Context(history, message, false, None)));
    var retry := Retry(sample, encode, decode, history, message);
    AttemptYields(sample, decode, buf, draw, 0, "", []);
    AttemptBufBound(sample, decode, buf, draw, 0, "", []);
    forall d: nat
      ensures AllSegments(retry(d).segments) && |retry(d).buf| <= ContextLength
    {
      AttemptYields(sample, decode, retryBuf, d, 0, "", []);
      AttemptBufBound(sample, decode, retryBuf, d, 0, "", []);
    }
    AfterAttemptSegments(RunAttempt(sample, decode, buf, draw), autoStart, retry, fuel);
  }

  /** Auto-start mode never retries: it answers the first attempt, with "Hey" when that yields nothing. */
  lemma AutoStartAnswers(sample: Sampler, encode: string -> seq<TokenId>, decode: seq<TokenId> -> string,
                         history: string, message: string, autoStartPrompt: Option<string>, draw: nat, fuel: nat)
    ensures var o := Reply(sample, encode, decode, history, message, true, autoStartPrompt, draw, fuel);
      var a := RunAttempt(sample, decode, Truncate(encode(Context(history, message, true, autoStartPrompt))), draw);
      && !o.exhausted
      && o.segments == (if a.segments == [] then ["Hey"] else a.segments)
      && o.draws == a.draws
  {
  }

  /** More retries never change a call that finished: the fuel bound only cuts off endless retrying. */
  lemma {:induction false} AfterAttemptFuelMonotone(a: Attempt, autoStart: bool, retry: nat -> Attempt, fuel: nat)
    requires !AfterAttempt(a, autoStart, retry, fuel).exhausted
    ensures AfterAttempt(a, autoStart, retry, fuel + 1) == AfterAttempt(a, autoStart, retry, fuel)
    decreases fuel
  {
    if a.segments == [] && !autoStart {
      AfterAttemptFuelMonotone(retry(a.draws), false, retry, fuel - 1);
    }
  }

  lemma ReplyFuelMonotone(sample: Sampler, encode: string -> seq<TokenId>, decode: seq<TokenId> -> string,
                          history: string, message: string, autoStart: bool, autoStartPrompt: Option<string>,
                          draw: nat, fuel: nat)
    requires !Reply(sample, encode, decode, history, message, autoStart, autoStartPrompt, draw, fuel).exhausted
    ensures Reply(sample, encode, decode, history, message, autoStart, autoStartPrompt, draw, fuel + 1)
         == Reply(sample, encode, decode, history, message, autoStart, autoStartPrompt, draw, fuel)
  {
    var buf := Truncate(encode(Context(history, message, autoStart, autoStartPrompt)));
    AfterAttemptFuelMonotone(RunAttempt(sample, decode, buf, draw), autoStart,
                             Retry(sample, encode, decode, history, message), fuel);
  }

  /** The remaining attempt after one more step, with the state after the step named by the caller. */
  lemma AttemptAdvance(sample: Sampler, decode: seq<TokenId> -> string, buf: seq<TokenId>, draw: nat,
                       i: nat, acc: string, out: seq<string>, total: Attempt,
                       buf': seq<TokenId>, draw': nat, acc': string, out': seq<string>, stop': bool)
    requires i < MaxTokens
    requires AttemptFrom(sample, decode, buf, draw, i, acc, out) == total
    requires buf' == Push(buf, sample(buf, draw)) && draw' == draw + 1
    requires Step(acc', out', stop') == StepOn(decode([sample(buf, draw)]), acc, out)
    ensures stop' ==> Attempt(Flush(acc', out'), buf', draw') == total
    ensures !stop' ==> AttemptFrom(sample, decode, buf', draw', i + 1, acc', out') == total
  {
  }

  /** The branch of model.py:281-310 taken for one token, as statements on the loop's variables. */
  method Absorb(token: string, acc: string, out: seq<string>) returns (acc': string, out': seq<string>, stop: bool)
    ensures Step(acc', out', stop) == StepOn(token, acc, out)
  {
    acc', out', stop := acc, out, false;
    match Classify(token) {
      case Boundary(s) =>
        var text := Strip(acc);
        if text != [] {
          out' := out + [text];
          acc' := "";
        }
        stop := s;
      case Reaction =>
        out' := out + [token];
      case Text =>
        acc' := acc + token;
    }
  }

  /** One attempt run on the model's own buffer: the 200-step loop of model.py:275-314. */
  method SampleAttempt(m: Model, sample: Sampler) returns (segments: seq<string>)
    requires m.Valid() && m.primed
    modifies m
    ensures m.Valid() && m.primed
    ensures var a := RunAttempt(sample, m.decode, old(m.currentTokens), old(m.draws));
      segments == a.segments && m.currentTokens == a.buf && m.draws == a.draws
  {
    ghost var total := RunAttempt(sample, m.decode, m.currentTokens, m.draws);
    var acc := "";
    var out: seq<string> := [];
    var i := 0;
    var stopped := false;
    while i < MaxTokens && !stopped
      invariant m.Valid() && m.primed && i <= MaxTokens
      invariant !stopped ==> AttemptFrom(sample, m.decode, m.currentTokens, m.draws, i, acc, out) == total
      invariant stopped ==> Attempt(Flush(acc, out), m.currentTokens, m.draws) == total
      decreases MaxTokens - i
    {
      ghost var buf0, draw0, acc0, out0 := m.currentTokens, m.draws, acc, out;
      var next := m.NextToken(sample);
      acc, out, stopped := Absorb(next.value, acc, out);
      AttemptAdvance(sample, m.decode, buf0, draw0, i, acc0, out0, total, m.currentTokens, m.draws, acc, out, stopped);
      i := i + 1;
    }
    segments := Flush(acc, out);
  }

  /**
   * `generate_response_stream` on the model: prime with the context, run one
   * attempt, then apply the empty-output policy.
   */
  method GenerateResponseStream(m: Model, sample: Sampler, history: string, message: string,
                                autoStart: bool, autoStartPrompt: Option<string>, fuel: nat)
    returns (segments: seq<string>, exhausted: bool)
    requires m.Valid()
    modifies m
    ensures m.Valid() && m.primed
    ensures Outcome(segments, m.currentTokens, m.draws, exhausted)
         == Reply(sample, m.encode, m.decode, history, message, autoStart, autoStartPrompt, old(m.draws), fuel)
    decreases fuel, 1
  {
    m.Prime(Context(history, message, autoStart, autoStartPrompt));
    var first := SampleAttempt(m, sample);
    segments, exhausted := AnswerOrRetry(m, sample, history, message, autoStart, first, fuel);
  }

  /** model.py:316-324 after an attempt that yielded `first`: keep it, answer "Hey", or retry. */
  method AnswerOrRetry(m: Model, sample: Sampler, history: string, message: string,
                       autoStart: bool, first: seq<string>, fuel: nat)
    returns (segments: seq<string>, exhausted: bool)
    requires m.Valid() && m.primed
    modifies m
    ensures m.Valid() && m.primed
    ensures Outcome(segments, m.currentTokens, m.draws, exhausted)
         == AfterAttempt(Attempt(first, old(m.currentTokens), old(m.draws)), autoStart,
                         Retry(sample, m.encode, m.decode, history, message), fuel)
    decreases fuel, 0
  {
    segments, exhausted := first, false;
    if first == [] {
      if autoStart {
        segments := ["Hey"];
      } else if fuel == 0 {
        exhausted := true;
      } else {
        segments, exhausted := GenerateResponseStream(m, sample, history, message, false, None, fuel - 1);
      }
    }
  }
}

/**
 * The HTTP endpoints of app.py over the model: the chat session store and
 * the history string that `generate` assembles, `reset`, the admission checks
 * of `beam_tree`, the path replay of `expand_depth`, the sampling loop of
 * `grpo_generate` and the field checks of `grpo_train` and `train`.
 */
module Server {
  import opened Wrappers
  import opened Text
  import opened ContextWindow
  import opened BeamTree
  import opened Reply

  /** A JSON error answer: a 400 with its message, or the 500 of a caught exception. */
  datatype Failure = BadRequest(message: string) | ServerError

  /** The 400 messages of app.py. */
  const NoMessage := "No message provided"
  const NoPrompt := "No prompt provided"
  const KTooLarge := "k must be <= 500"
  const NTooLarge := "n must be <= 10 for full tree generation. Use lazy loading for deeper trees."
  const MissingFields := "Missing required fields"
  const NotEightRanked := "Expected exactly 8 ranked responses"

  // ---------------------------------------------------------------------
  // /api/generate (app.py:28-98)
  // ---------------------------------------------------------------------

  /** One server-sent event of the chat stream. */
  datatype Event = Response(text: string) | Done(history: string)

  /** The history the request continues: the stored one replaces an empty request history (app.py:51-52). */
  function SessionHistory(conversations: map<string, string>, sessionId: string, history: string): (r: string)
    ensures history != [] ==> r == history
    ensures history == [] && sessionId !in conversations ==> r == []
    ensures history == [] && sessionId in conversations ==> r == conversations[sessionId]
  {
    if history == [] && sessionId in conversations then conversations[sessionId] else history
  }

  /** The history before any reply (app.py:55-65). */
  function InitialHistory(history: string, message: string, autoStart: bool): (r: string)
    ensures autoStart ==> r == ConversationStart + Me
    ensures !autoStart ==> StartsWith(r, if history == [] then ConversationStart else history)
    ensures !autoStart ==> EndsWith(r, Them + message)
  {
    if autoStart then ConversationStart + Me
    else if history == [] then ConversationStart + Them + message
    else history + Them + message
  }

  /**
   * The prompt the model is given is the new history followed by `<|Me|>`,
   * except on a first message, where the model sees no `<|ConversationStart|>`
   * although the stored history starts with one.
   */
  lemma PromptFollowsHistory(history: string, message: string, autoStart: bool)
    ensures var context := Context(if autoStart then "" else history, message, autoStart,
                                   if autoStart then Some(InitialHistory(history, message, autoStart)) else None);
      && (autoStart ==> context == InitialHistory(history, message, autoStart))
      && (!autoStart && history != [] ==> context == InitialHistory(history, message, autoStart) + Me)
      && (!autoStart && history == [] ==> ConversationStart + context == InitialHistory(history, message, autoStart) + Me)
  {
    if !autoStart && history == [] {
      assert [] + Them + message + Me == Them + message + Me;
    }
  }

  /** `response.startswith("<|") and response.endswith("|>")`. */
  predicate IsMarker(s: string) {
    StartsWith(s, "<|") && EndsWith(s, "|>")
  }

  /** How one yielded segment is added to the history (app.py:75-82). */
  function AppendSegment(h: string, segment: string, autoStart: bool): (r: string)
    ensures StartsWith(r, h) && EndsWith(r, segment)
    ensures IsMarker(segment) ==> r == h + segment
    ensures !IsMarker(segment) && !(autoStart && h == ConversationStart + Me) ==> r == h + Me + segment
  {
    if IsMarker(segment) then h + segment
    else if autoStart && h == ConversationStart + Me then h + segment
    else h + Me + segment
  }

  /** The history after the given segments, in the order they were yielded. */
  function AppendSegments(h: string, segments: seq<string>, autoStart: bool): string
    decreases |segments|
  {
    if segments == [] then h
    else AppendSegment(AppendSegments(h, segments[..|segments| - 1], autoStart), segments[|segments| - 1], autoStart)
  }

  /** The history only grows: after the first j segments it is an initial part of the final history. */
  lemma {:induction false} AppendSegmentsGrows(h: string, segments: seq<string>, autoStart: bool, j: nat)
    requires j <= |segments|
    ensures StartsWith(AppendSegments(h, segments, autoStart), AppendSegments(h, segments[..j], autoStart))
    decreases |segments|
  {
    if j == |segments| {
      assert segments[..j] == segments;
    } else {
      var init := segments[..|segments| - 1];
      var whole := AppendSegments(h, segments, autoStart);
      assert whole == AppendSegment(AppendSegments(h, init, autoStart), segments[|segments| - 1], autoStart);
      AppendSegmentsGrows(h, init, autoStart, j);
      assert init[..j] == segments[..j];
      StartsWithTransitive(whole, AppendSegments(h, init, autoStart), AppendSegments(h, segments[..j], autoStart));
    }
  }

  /** The piece added for segment j ends the history with that segment. */
  lemma AppendSegmentsEnds(h: string, segments: seq<string>, autoStart: bool, j: nat)
    requires j < |segments|
    ensures EndsWith(AppendSegments(h, segments[..j + 1], autoStart), segments[j])
  {
    var next := segments[..j + 1];
    assert next[..|next| - 1] == segments[..j] && next[|next| - 1] == segments[j];
  }

  /** The history starts with the history the request began from. */
  lemma AppendSegmentsKeepsStart(h: string, segments: seq<string>, autoStart: bool)
    ensures StartsWith(AppendSegments(h, segments, autoStart), h)
  {
    AppendSegmentsGrows(h, segments, autoStart, 0);
    assert segments[..0] == [];
  }

  /** One `response` event per segment, in order. */
  function Responses(segments: seq<string>): (r: seq<Event>)
    ensures |r| == |segments| && forall i :: 0 <= i < |r| ==> r[i] == Response(segments[i])
  {
    seq(|segments|, i requires 0 <= i < |segments| => Response(segments[i]))
  }

  /** `reset` on a store: only the given id goes, and an absent one is no change. */
  function Forget(conversations: map<string, string>, sessionId: string): (r: map<string, string>)
    ensures sessionId !in r
    ensures forall id :: id in conversations && id != sessionId ==> id in r && r[id] == conversations[id]
    ensures forall id :: id in r ==> id in conversations
  {
    conversations - {sessionId}
  }

  /** Resetting twice is resetting once. */
  lemma ForgetIdempotent(conversations: map<string, string>, sessionId: string)
    ensures Forget(Forget(conversations, sessionId), sessionId) == Forget(conversations, sessionId)
    ensures sessionId !in conversations ==> Forget(conversations, sessionId) == conversations
  {
  }

  /** The loop of app.py:75-85: the history grows by each segment, one `response` event per segment. */
  method StreamSegments(start: string, segments: seq<string>, autoStart: bool) returns (history: string, events: seq<Event>)
    ensures history == AppendSegments(start, segments, autoStart)
    ensures events == Responses(segments)
  {
    history, events := start, [];
    var i := 0;
    while i < |segments|
      invariant i <= |segments|
      invariant history == AppendSegments(start, segments[..i], autoStart)
      invariant events == Responses(segments[..i])
    {
      assert segments[..i + 1][..i] == segments[..i];
      history := AppendSegment(history, segments[i], autoStart);
      events := events + [Response(segments[i])];
      i := i + 1;
    }
    assert segments[..i] == segments;
  }

  /** The server's state: the loaded model and the `conversations` dict. */
  class Server {
    const model: Model
    var conversations: map<string, string>

    ghost predicate Valid()
      reads this, model
    {
      model.Valid()
    }

    constructor (model: Model)
      requires model.Valid()
      ensures Valid() && this.model == model && conversations == map[]
    {
      this.model := model;
      conversations := map[];
    }

    /**
     * `generate`: rejects a normal request without a message, otherwise streams
     * one event per segment and a final `done` event and stores the history
     * that event carries. When the retry budget runs out (the source would go
     * on retrying) nothing is streamed and nothing is stored.
     */
    method Generate(sample: Sampler, sessionId: string, rawMessage: string, history: string,
                    autoStart: bool, fuel: nat) returns (r: Result<seq<Event>, Failure>)
      requires Valid()
      modifies this, model
      ensures Valid()
      ensures !autoStart && Strip(rawMessage) == [] ==>
        r == Err(BadRequest(NoMessage)) && conversations == old(conversations) && unchanged(model)
      ensures autoStart || Strip(rawMessage) != [] ==>
        var message := Strip(rawMessage);
        var h := SessionHistory(old(conversations), sessionId, history);
        var start := InitialHistory(h, message, autoStart);
        var o := Reply.Reply(sample, model.encode, model.decode, if autoStart then "" else h, message, autoStart,
                       if autoStart then Some(start) else None, old(model.draws), fuel);
        var final := AppendSegments(start, o.segments, autoStart);
        && model.primed && model.currentTokens == o.buf && model.draws == o.draws
        && (o.exhausted ==> r == Ok([]) && conversations == old(conversations))
        && (!o.exhausted ==>
              r == Ok(Responses(o.segments) + [Done(final)])
              && conversations == old(conversations)[sessionId := final])
    {
      var message := Strip(rawMessage);
      if !autoStart && message == [] {
        return Err(BadRequest(NoMessage));
      }
      var h := history;
      if h == [] && sessionId in conversations {
        h := conversations[sessionId];
      }
      var newHistory := InitialHistory(h, message, autoStart);
      var segments, exhausted := GenerateResponseStream(model, sample, if autoStart then "" else h, message, autoStart,
                                                        if autoStart then Some(newHistory) else None, fuel);
      if exhausted {
        return Ok([]);
      }
      var final, events := StreamSegments(newHistory, segments, autoStart);
      conversations := conversations[sessionId := final];
      r := Ok(events + [Done(final)]);
    }

    /** `reset`: drops the session's stored history and always reports success (app.py:101-110). */
    method Reset(sessionId: string) returns (success: bool)
      modifies this
      ensures conversations == Forget(old(conversations), sessionId) && success
    {
      if sessionId in conversations {
        conversations := conversations - {sessionId};
      }
      success := true;
    }
  }

  // ---------------------------------------------------------------------
  // /api/beam-tree (app.py:113-153)
  // ---------------------------------------------------------------------

  /**
   * `beam_tree`: the prompt is stripped and must be non-empty, k at most 500
   * and n at most 10. The debug print that follows the build slices the
   * top-level children, so a tree without children (n <= 0, or an empty
   * oracle answer) ends in the 500 of the caught TypeError, as does a
   * negative k, which `torch.topk` refuses.
   */
  function BeamTreeEndpoint(topK: TopK, encode: string -> seq<TokenId>, rawPrompt: string, k: int, n: int)
    : (r: Result<Tree, Failure>)
    ensures Strip(rawPrompt) == [] ==> r == Err(BadRequest(NoPrompt))
    ensures Strip(rawPrompt) != [] && k > 500 ==> r == Err(BadRequest(KTooLarge))
    ensures Strip(rawPrompt) != [] && k <= 500 && n > 10 ==>
      r == Err(BadRequest(NTooLarge))
    ensures r.Ok? <==>
      && Strip(rawPrompt) != [] && 0 <= k <= 500 && 1 <= n <= 10
      && topK(Truncate(encode(WrapPrompt(Strip(rawPrompt)))), k) != []
    ensures r.Ok? ==> k >= 0 && n >= 0 && r.value == BuildBeamTree(topK, encode, Strip(rawPrompt), k, n)
  {
    var prompt := Strip(rawPrompt);
    if prompt == [] then Err(BadRequest(NoPrompt))
    else if k > 500 then Err(BadRequest(KTooLarge))
    else if n > 10 then Err(BadRequest(NTooLarge))
    else if n <= 0 then Err(ServerError)
    else if k < 0 then Err(ServerError)
    else
      var tree := BuildBeamTree(topK, encode, prompt, k, n);
      if tree.children.None? then Err(ServerError) else Ok(tree)
  }

  // ---------------------------------------------------------------------
  // /api/expand-depth (app.py:156-235)
  // ---------------------------------------------------------------------

  /** One entry of the request's `nodes`: the ids above the node and the node's own id. */
  datatype ExpandRequest = ExpandRequest(path: seq<TokenId>, tokenId: TokenId)

  /** The full path of the node to expand. */
  function FullPath(req: ExpandRequest): seq<TokenId> {
    req.path + [req.tokenId]
  }

  /** A fetched child: the oracle's fields, cumulative = its own probability, depth 0, not loaded (app.py:216-227). */
  function LeafChild(c: Candidate): (r: Node)
    ensures AsCandidate(r) == c
    ensures r.cumulativeProb == c.probability && r.depth == 0 && r.children == None
  {
    Node(c.tokenId, c.tokenStr, c.probability, c.probability, 0, None)
  }

  function LeafChildren(cands: seq<Candidate>): (r: seq<Node>)
    ensures Answers(r, cands)
    ensures forall i :: 0 <= i < |r| ==> r[i].children == None && r[i].depth == 0
  {
    seq(|cands|, i requires 0 <= i < |cands| => LeafChild(cands[i]))
  }

  /** The buffer a node is expanded from: the truncated prompt with the path and then the node pushed. */
  function ExpandBuffer(encode: string -> seq<TokenId>, prompt: string, req: ExpandRequest): seq<TokenId> {
    Replay(Truncate(encode(prompt)), FullPath(req))
  }

  /** The `children_map` after the given requests: a later entry with the same key overwrites. */
  function ChildrenMap(topK: TopK, encode: string -> seq<TokenId>, prompt: string, reqs: seq<ExpandRequest>, k: nat)
    : map<string, seq<Node>>
    decreases |reqs|
  {
    if reqs == [] then map[]
    else
      var last := reqs[|reqs| - 1];
      ChildrenMap(topK, encode, prompt, reqs[..|reqs| - 1], k)[PathKey(FullPath(last)) := LeafChildren(topK(ExpandBuffer(encode, prompt, last), k))]
  }

  /** Every key of the map is the path key of a requested node. */
  lemma {:induction false} ChildrenMapKeys(topK: TopK, encode: string -> seq<TokenId>, prompt: string,
                                           reqs: seq<ExpandRequest>, k: nat, key: string)
    requires key in ChildrenMap(topK, encode, prompt, reqs, k)
    ensures exists i :: 0 <= i < |reqs| && PathKey(FullPath(reqs[i])) == key
    decreases |reqs|
  {
    var init := reqs[..|reqs| - 1];
    var last := reqs[|reqs| - 1];
    if key == PathKey(FullPath(last)) {
      assert PathKey(FullPath(reqs[|reqs| - 1])) == key;
    } else {
      ChildrenMapKeys(topK, encode, prompt, init, k, key);
      var i :| 0 <= i < |init| && PathKey(FullPath(init[i])) == key;
      assert reqs[i] == init[i];
    }
  }

  /** Distinct requests for distinct nodes have distinct keys. */
  lemma FullPathKeyInjective(a: ExpandRequest, b: ExpandRequest)
    requires PathKey(FullPath(a)) == PathKey(FullPath(b))
    ensures a == b
  {
    PathKeyInjective(FullPath(a), FullPath(b));
    assert a.path == FullPath(a)[..|FullPath(a)| - 1];
    assert b.path == FullPath(b)[..|FullPath(b)| - 1];
  }

  /**
   * Every requested node is in the map, under its key the children fetched
   * for its own buffer: keys cannot collide, so a later entry never
   * overwrites another node's children.
   */
  lemma {:induction false} ChildrenMapValues(topK: TopK, encode: string -> seq<TokenId>, prompt: string,
                                             reqs: seq<ExpandRequest>, k: nat, i: nat)
    requires i < |reqs|
    ensures PathKey(FullPath(reqs[i])) in ChildrenMap(topK, encode, prompt, reqs, k)
    ensures ChildrenMap(topK, encode, prompt, reqs, k)[PathKey(FullPath(reqs[i]))]
         == LeafChildren(topK(ExpandBuffer(encode, prompt, reqs[i]), k))
    decreases |reqs|
  {
    var init := reqs[..|reqs| - 1];
    var last := reqs[|reqs| - 1];
    if PathKey(FullPath(reqs[i])) == PathKey(FullPath(last)) {
      FullPathKeyInjective(reqs[i], last);
    } else {
      assert i < |init| && reqs[i] == init[i];
      ChildrenMapValues(topK, encode, prompt, init, k, i);
    }
  }

  /** The buffer of one request, built as the loop of app.py:195-207 builds it. */
  method ReplayPath(encode: string -> seq<TokenId>, prompt: string, req: ExpandRequest) returns (tokens: seq<TokenId>)
    ensures tokens == ExpandBuffer(encode, prompt, req)
  {
    tokens := encode(prompt);
    if |tokens| > ContextLength {
      tokens := tokens[|tokens| - ContextLength..];
    }
    ghost var start := tokens;
    var full := FullPath(req);
    var j := 0;
    while j < |full|
      invariant j <= |full| && |tokens| <= ContextLength
      invariant tokens == Replay(start, full[..j])
    {
      ReplayStep(start, full, j, tokens);
      ghost var next := Truncate(tokens + [full[j]]);
      tokens := tokens + [full[j]];
      if |tokens| > ContextLength {
        tokens := tokens[|tokens| - ContextLength..];
      }
      assert tokens == next;
      j := j + 1;
    }
    assert full[..j] == full;
  }

  /** The loop of app.py:190-231: one entry per requested node, in request order. */
  method FetchChildren(topK: TopK, encode: string -> seq<TokenId>, prompt: string, reqs: seq<ExpandRequest>, k: nat)
    returns (result: map<string, seq<Node>>)
    ensures result == ChildrenMap(topK, encode, prompt, reqs, k)
  {
    result := map[];
    var i := 0;
    while i < |reqs|
      invariant i <= |reqs|
      invariant result == ChildrenMap(topK, encode, prompt, reqs[..i], k)
    {
      var tokens := ReplayPath(encode, prompt, reqs[i]);
      var children := LeafChildren(topK(tokens, k));
      assert reqs[..i + 1][..i] == reqs[..i];
      result := result[PathKey(FullPath(reqs[i])) := children];
      i := i + 1;
    }
    assert reqs[..i] == reqs;
  }

  /**
   * `expand_depth`: an empty prompt is refused; otherwise every requested node
   * gets the oracle's children for its replayed buffer under its path key. A
   * k below 0 or above VocabSize makes `torch.topk` raise as soon as one node
   * is expanded, and the handler answers 500.
   */
  method ExpandDepth(topK: TopK, encode: string -> seq<TokenId>, rawPrompt: string, reqs: seq<ExpandRequest>, k: int)
    returns (r: Result<map<string, seq<Node>>, Failure>)
    ensures Strip(rawPrompt) == [] ==> r == Err(BadRequest(NoPrompt))
    ensures Strip(rawPrompt) != [] && (k < 0 || k > VocabSize) && reqs != [] ==> r == Err(ServerError)
    ensures Strip(rawPrompt) != [] && (0 <= k <= VocabSize || reqs == []) ==>
      r == Ok(ChildrenMap(topK, encode, Strip(rawPrompt), reqs, if k < 0 then 0 else k))
  {
    var prompt := Strip(rawPrompt);
    if prompt == [] {
      return Err(BadRequest(NoPrompt));
    }
    if (k < 0 || k > VocabSize) && reqs != [] {
      return Err(ServerError);
    }
    var result := FetchChildren(topK, encode, prompt, reqs, if k < 0 then 0 else k);
    return Ok(result);
  }

  /** The tree's prompt is its own strip, so the server sees the prompt the client sends back unchanged. */
  lemma WrappedPromptStripped(prompt: string)
    ensures Strip(WrapPrompt(prompt)) == WrapPrompt(prompt)
  {
    var w := WrapPrompt(prompt);
    assert w[0] == '<';
    assert w[|w| - 1] == '>';
    StripIdentity(w);
  }

  /**
   * Expanding a node of a built tree, with the tree's prompt as the client
   * sends it, fetches the children the full build grows at that node: the
   * same oracle answer, and the tree's own children answer it too when the
   * node is above the depth bound.
   */
  lemma ExpandAgreesWithTree(topK: TopK, encode: string -> seq<TokenId>, prompt: string, k: nat, n: nat,
                             req: ExpandRequest)
    requires BuildBeamTree(topK, encode, prompt, k, n).children.Some?
    requires Descend(BuildBeamTree(topK, encode, prompt, k, n).children.value, FullPath(req)).Some?
    ensures var t := BuildBeamTree(topK, encode, prompt, k, n);
      var node := Descend(t.children.value, FullPath(req)).value;
      var cands := topK(ExpandBuffer(encode, Strip(t.prompt), req), k);
      && Answers(LeafChildren(cands), cands)
      && node.depth == |req.path|
      && (|FullPath(req)| < n ==> (node.children.None? <==> cands == []))
      && (node.children.Some? ==> Answers(node.children.value, cands))
  {
    var t := BuildBeamTree(topK, encode, prompt, k, n);
    var root := Truncate(encode(WrapPrompt(prompt)));
    WrappedPromptStripped(prompt);
    assert ExpandBuffer(encode, Strip(t.prompt), req) == Replay(root, FullPath(req));
    BuildNodeGrown(topK, k, n, root, 0, 1.0);
    DescendBuilds(topK, k, n, t.children.value, root, 0, FullPath(req), Replay(root, FullPath(req)), |FullPath(req)|);
    var node := Descend(t.children.value, FullPath(req)).value;
    BuildNodeAnswers(topK, k, n, Replay(root, FullPath(req)), |FullPath(req)|, node.cumulativeProb);
  }

  // ---------------------------------------------------------------------
  // /api/grpo-generate (app.py:238-318)
  // ---------------------------------------------------------------------

  /** `range(8)` and `max_tokens = 100`. */
  const GrpoCount: nat := 8
  const GrpoMaxTokens: nat := 100

  /** One completed response: the stripped text and the ids of the kept tokens. */
  datatype GrpoResponse = GrpoResponse(text: string, tokens: seq<TokenId>)

  /** A response being sampled, with the buffer and draw count it leaves. */
  datatype Sampled = Sampled(text: string, tokens: seq<TokenId>, buf: seq<TokenId>, draws: nat)

  /** The decoded texts of the given ids, one after the other. */
  function Spell(decode: seq<TokenId> -> string, ids: seq<TokenId>): string
    decreases |ids|
  {
    if ids == [] then "" else Spell(decode, ids[..|ids| - 1]) + decode([ids[|ids| - 1]])
  }

  /**
   * The rest of one response from step i (app.py:278-301): each sampled token
   * is kept, unless it is one of the four markers, which is popped again and
   * ends the response.
   */
  function GrpoFrom(sample: Sampler, decode: seq<TokenId> -> string, buf: seq<TokenId>, draw: nat,
                    i: nat, text: string, tokens: seq<TokenId>): Sampled
    decreases GrpoMaxTokens - i
  {
    if i >= GrpoMaxTokens then Sampled(text, tokens, buf, draw)
    else
      var id := sample(buf, draw);
      var token := decode([id]);
      if IsBoundary(token) then Sampled(text, tokens, Push(buf, id), draw + 1)
      else GrpoFrom(sample, decode, Push(buf, id), draw + 1, i + 1, text + token, tokens + [id])
  }

  /** One whole response from a freshly primed buffer. */
  function GrpoRun(sample: Sampler, decode: seq<TokenId> -> string, buf: seq<TokenId>, draw: nat): Sampled {
    GrpoFrom(sample, decode, buf, draw, 0, "", [])
  }

  /** No kept token is a marker. */
  predicate NoMarkers(decode: seq<TokenId> -> string, tokens: seq<TokenId>) {
    forall j :: 0 <= j < |tokens| ==> !IsBoundary(decode([tokens[j]]))
  }

  /** Keeping one more token that is not a marker. */
  lemma KeepToken(decode: seq<TokenId> -> string, tokens: seq<TokenId>, id: TokenId)
    requires NoMarkers(decode, tokens) && !IsBoundary(decode([id]))
    ensures NoMarkers(decode, tokens + [id])
    ensures Spell(decode, tokens + [id]) == Spell(decode, tokens) + decode([id])
  {
    var tokens' := tokens + [id];
    assert tokens'[..|tokens'| - 1] == tokens;
    forall j | 0 <= j < |tokens'|
      ensures !IsBoundary(decode([tokens'[j]]))
    {
      if j < |tokens| {
        assert tokens'[j] == tokens[j];
      }
    }
  }

  /**
   * A response keeps at most 100 tokens, none of them a marker, and its text
   * is exactly the texts of its kept tokens.
   */
  lemma {:induction false} GrpoFromProperties(sample: Sampler, decode: seq<TokenId> -> string, buf: seq<TokenId>,
                                              draw: nat, i: nat, text: string, tokens: seq<TokenId>)
    requires i <= GrpoMaxTokens && |tokens| == i
    requires text == Spell(decode, tokens) && NoMarkers(decode, tokens)
    ensures var s := GrpoFrom(sample, decode, buf, draw, i, text, tokens);
      && |s.tokens| <= GrpoMaxTokens
      && s.text == Spell(decode, s.tokens)
      && NoMarkers(decode, s.tokens)
    decreases GrpoMaxTokens - i
  {
    if i < GrpoMaxTokens {
      var id := sample(buf, draw);
      var token := decode([id]);
      if IsBoundary(token) {
        assert GrpoFrom(sample, decode, buf, draw, i, text, tokens) == Sampled(text, tokens, Push(buf, id), draw + 1);
      } else {
        KeepToken(decode, tokens, id);
        GrpoFromProperties(sample, decode, Push(buf, id), draw + 1, i + 1, text + token, tokens + [id]);
        assert GrpoFrom(sample, decode, buf, draw, i, text, tokens)
            == GrpoFrom(sample, decode, Push(buf, id), draw + 1, i + 1, text + token, tokens + [id]);
      }
    } else {
      assert GrpoFrom(sample, decode, buf, draw, i, text, tokens) == Sampled(text, tokens, buf, draw);
    }
  }

  /** A response started within the context length leaves the buffer within it. */
  lemma {:induction false} GrpoFromBuffer(sample: Sampler, decode: seq<TokenId> -> string, buf: seq<TokenId>,
                                          draw: nat, i: nat, text: string, tokens: seq<TokenId>)
    requires i <= GrpoMaxTokens && |buf| <= ContextLength
    ensures |GrpoFrom(sample, decode, buf, draw, i, text, tokens).buf| <= ContextLength
    decreases GrpoMaxTokens - i
  {
    if i < GrpoMaxTokens {
      var id := sample(buf, draw);
      PushKeepsRecent(buf, id);
      if IsBoundary(decode([id])) {
        assert GrpoFrom(sample, decode, buf, draw, i, text, tokens).buf == Push(buf, id);
      } else {
        GrpoFromBuffer(sample, decode, Push(buf, id), draw + 1, i + 1, text + decode([id]), tokens + [id]);
        assert GrpoFrom(sample, decode, buf, draw, i, text, tokens)
            == GrpoFrom(sample, decode, Push(buf, id), draw + 1, i + 1, text + decode([id]), tokens + [id]);
      }
    }
  }

  lemma GrpoRunProperties(sample: Sampler, decode: seq<TokenId> -> string, buf: seq<TokenId>, draw: nat)
    ensures var s := GrpoRun(sample, decode, buf, draw);
      && |s.tokens| <= GrpoMaxTokens
      && s.text == Spell(decode, s.tokens)
      && NoMarkers(decode, s.tokens)
      && (|buf| <= ContextLength ==> |s.buf| <= ContextLength)
  {
    GrpoFromProperties(sample, decode, buf, draw, 0, "", []);
    if |buf| <= ContextLength {
      GrpoFromBuffer(sample, decode, buf, draw, 0, "", []);
    }
  }

  /** How one response is sampled from a primed buffer and a draw count. */
  type Runner = (seq<TokenId>, nat) -> Sampled

  function GrpoRunner(sample: Sampler, decode: seq<TokenId> -> string): Runner {
    (b: seq<TokenId>, d: nat) => GrpoRun(sample, decode, b, d)
  }

  /** The responses of the batch, each sampled from a freshly primed buffer, the draws running on. */
  function GrpoBatch(run: Runner, buf: seq<TokenId>, draw: nat, count: nat): seq<GrpoResponse>
    decreases count
  {
    if count == 0 then []
    else
      var s := run(buf, draw);
      [GrpoResponse(Strip(s.text), s.tokens)] + GrpoBatch(run, buf, s.draws, count - 1)
  }

  /** Draws after the batch. */
  function GrpoBatchDraws(run: Runner, buf: seq<TokenId>, draw: nat, count: nat): nat
    decreases count
  {
    if count == 0 then draw
    else GrpoBatchDraws(run, buf, run(buf, draw).draws, count - 1)
  }

  /** One more response of a batch is sampled at the draw count the earlier ones leave. */
  lemma {:induction false} GrpoBatchSnoc(run: Runner, buf: seq<TokenId>, draw: nat, count: nat)
    ensures var s := run(buf, GrpoBatchDraws(run, buf, draw, count));
      && GrpoBatch(run, buf, draw, count + 1) == GrpoBatch(run, buf, draw, count) + [GrpoResponse(Strip(s.text), s.tokens)]
      && GrpoBatchDraws(run, buf, draw, count + 1) == s.draws
    decreases count
  {
    if count > 0 {
      var first := run(buf, draw);
      GrpoBatchSnoc(run, buf, first.draws, count - 1);
      var s := run(buf, GrpoBatchDraws(run, buf, draw, count));
      var r := GrpoResponse(Strip(first.text), first.tokens);
      calc {
        GrpoBatch(run, buf, draw, count + 1);
        [r] + GrpoBatch(run, buf, first.draws, count);
        [r] + (GrpoBatch(run, buf, first.draws, count - 1) + [GrpoResponse(Strip(s.text), s.tokens)]);
        ([r] + GrpoBatch(run, buf, first.draws, count - 1)) + [GrpoResponse(Strip(s.text), s.tokens)];
        GrpoBatch(run, buf, draw, count) + [GrpoResponse(Strip(s.text), s.tokens)];
      }
    }
  }

  /** A batch holds one response per requested sample. */
  lemma {:induction false} GrpoBatchLength(run: Runner, buf: seq<TokenId>, draw: nat, count: nat)
    ensures |GrpoBatch(run, buf, draw, count)| == count
    decreases count
  {
    if count > 0 {
      GrpoBatchLength(run, buf, run(buf, draw).draws, count - 1);
    }
  }

  /** Response j of a batch is sampled from the primed buffer at the draw count the j responses before it leave. */
  lemma {:induction false} GrpoBatchAt(run: Runner, buf: seq<TokenId>, draw: nat, count: nat, j: nat)
    requires j < count
    ensures var b := GrpoBatch(run, buf, draw, count);
      var s := run(buf, GrpoBatchDraws(run, buf, draw, j));
      j < |b| && b[j] == GrpoResponse(Strip(s.text), s.tokens)
    decreases count
  {
    GrpoBatchLength(run, buf, draw, count);
    var s := run(buf, draw);
    var rest := GrpoBatch(run, buf, s.draws, count - 1);
    var b := GrpoBatch(run, buf, draw, count);
    assert b == [GrpoResponse(Strip(s.text), s.tokens)] + rest;
    if j > 0 {
      GrpoBatchAt(run, buf, s.draws, count - 1, j - 1);
      assert b[j] == rest[j - 1];
    }
  }

  /** Every response of a batch is the stripped text of at most 100 kept tokens, none a marker. */
  lemma GrpoBatchProperties(sample: Sampler, decode: seq<TokenId> -> string, buf: seq<TokenId>,
                            draw: nat, count: nat, j: nat)
    requires j < count
    ensures var b := GrpoBatch(GrpoRunner(sample, decode), buf, draw, count);
      && j < |b| && |b[j].tokens| <= GrpoMaxTokens && NoMarkers(decode, b[j].tokens)
      && b[j].text == Strip(Spell(decode, b[j].tokens))
  {
    var run := GrpoRunner(sample, decode);
    var d := GrpoBatchDraws(run, buf, draw, j);
    GrpoBatchAt(run, buf, draw, count, j);
    assert run(buf, d) == GrpoRun(sample, decode, buf, d);
    GrpoRunProperties(sample, decode, buf, d);
  }

  /** One step of the sampling loop of app.py:278-301, as the loop's variables see it. */
  lemma GrpoAdvance(sample: Sampler, decode: seq<TokenId> -> string, buf: seq<TokenId>, draw: nat,
                    i: nat, text: string, tokens: seq<TokenId>, total: Sampled, buf': seq<TokenId>)
    requires i < GrpoMaxTokens
    requires GrpoFrom(sample, decode, buf, draw, i, text, tokens) == total
    requires buf' == Push(buf, sample(buf, draw))
    ensures buf'[|buf'| - 1] == sample(buf, draw)
    ensures IsBoundary(decode([sample(buf, draw)])) ==> Sampled(text, tokens, buf', draw + 1) == total
    ensures !IsBoundary(decode([sample(buf, draw)])) ==>
      GrpoFrom(sample, decode, buf', draw + 1, i + 1, text + decode([sample(buf, draw)]),
               tokens + [sample(buf, draw)]) == total
  {
    PushKeepsRecent(buf, sample(buf, draw));
  }

  /** The sampling loop of app.py:276-301 on a primed model. */
  method SampleResponse(m: Model, sample: Sampler) returns (text: string, tokens: seq<TokenId>)
    requires m.Valid() && m.primed
    modifies m
    ensures m.Valid() && m.primed
    ensures Sampled(text, tokens, m.currentTokens, m.draws) == GrpoRun(sample, m.decode, old(m.currentTokens), old(m.draws))
  {
    ghost var total := GrpoRun(sample, m.decode, m.currentTokens, m.draws);
    text, tokens := "", [];
    var i := 0;
    var stopped := false;
    while i < GrpoMaxTokens && !stopped
      invariant m.Valid() && m.primed && i <= GrpoMaxTokens
      invariant !stopped ==> GrpoFrom(sample, m.decode, m.currentTokens, m.draws, i, text, tokens) == total
      invariant stopped ==> Sampled(text, tokens, m.currentTokens, m.draws) == total
      decreases GrpoMaxTokens - i
    {
      ghost var buf0, draw0 := m.currentTokens, m.draws;
      var next := m.NextToken(sample);
      GrpoAdvance(sample, m.decode, buf0, draw0, i, text, tokens, total, m.currentTokens);
      var id := m.currentTokens[|m.currentTokens| - 1];
      if IsBoundary(next.value) {
        stopped := true;
      } else {
        text, tokens := text + next.value, tokens + [id];
      }
      i := i + 1;
    }
  }

  /** One response on the model (app.py:273-307): prime with the framed prompt, sample, strip. */
  method GrpoSample(m: Model, sample: Sampler, fullPrompt: string) returns (response: GrpoResponse)
    requires m.Valid()
    modifies m
    ensures m.Valid() && m.primed
    ensures var s := GrpoRun(sample, m.decode, Truncate(m.encode(fullPrompt)), old(m.draws));
      response == GrpoResponse(Strip(s.text), s.tokens) && m.currentTokens == s.buf && m.draws == s.draws
  {
    m.Prime(fullPrompt);
    var text, tokens := SampleResponse(m, sample);
    response := GrpoResponse(Strip(text), tokens);
  }

  /** Sampling with the runner is sampling one response. */
  lemma RunnerApply(sample: Sampler, decode: seq<TokenId> -> string, buf: seq<TokenId>, draw: nat)
    ensures GrpoRunner(sample, decode)(buf, draw) == GrpoRun(sample, decode, buf, draw)
  {
  }

  /**
   * `grpo_generate`: an empty prompt is refused; otherwise eight responses,
   * each sampled after priming with the framed prompt.
   */
  method GrpoGenerate(m: Model, sample: Sampler, rawPrompt: string) returns (r: Result<seq<GrpoResponse>, Failure>)
    requires m.Valid()
    modifies m
    ensures m.Valid()
    ensures Strip(rawPrompt) == [] ==> r == Err(BadRequest(NoPrompt))
    ensures Strip(rawPrompt) != [] ==>
      var buf := Truncate(m.encode(WrapPrompt(Strip(rawPrompt))));
      && r == Ok(GrpoBatch(GrpoRunner(sample, m.decode), buf, old(m.draws), GrpoCount))
      && m.draws == GrpoBatchDraws(GrpoRunner(sample, m.decode), buf, old(m.draws), GrpoCount)
  {
    var prompt := Strip(rawPrompt);
    if prompt == [] {
      return Err(BadRequest(NoPrompt));
    }
    var fullPrompt := ConversationStart + Them + prompt + Me;
    var responses := GrpoLoop(m, sample, fullPrompt, GrpoCount);
    return Ok(responses);
  }

  /** The loop of app.py:270-309: `count` responses, one after the other, on the same model. */
  method GrpoLoop(m: Model, sample: Sampler, fullPrompt: string, count: nat) returns (responses: seq<GrpoResponse>)
    requires m.Valid()
    modifies m
    ensures m.Valid()
    ensures var buf := Truncate(m.encode(fullPrompt));
      && responses == GrpoBatch(GrpoRunner(sample, m.decode), buf, old(m.draws), count)
      && m.draws == GrpoBatchDraws(GrpoRunner(sample, m.decode), buf, old(m.draws), count)
  {
    ghost var run := GrpoRunner(sample, m.decode);
    ghost var buf := Truncate(m.encode(fullPrompt));
    ghost var draw0 := m.draws;
    responses := [];
    var i := 0;
    while i < count
      invariant m.Valid() && i <= count
      invariant responses == GrpoBatch(run, buf, draw0, i)
      invariant m.draws == GrpoBatchDraws(run, buf, draw0, i)
    {
      GrpoBatchSnoc(run, buf, draw0, i);
      RunnerApply(sample, m.decode, buf, m.draws);
      var response := GrpoSample(m, sample, fullPrompt);
      responses := responses + [response];
      i := i + 1;
    }
  }

  // ---------------------------------------------------------------------
  // /api/grpo-train and /api/train: the field checks before the training step
  // ---------------------------------------------------------------------

  /** What a valid `grpo_train` request hands to the training step. */
  datatype GrpoStep = GrpoStep(prompt: seq<TokenId>, ranked: seq<(seq<TokenId>, int)>)

  /** The checks of app.py:338-342 and the payload of app.py:346-350. */
  function GrpoTrainRequest(encode: string -> seq<TokenId>, prompt: string, ranked: seq<(seq<TokenId>, int)>)
    : (r: Result<GrpoStep, Failure>)
    ensures r.Ok? <==> prompt != [] && |ranked| == 8
    ensures prompt == [] || ranked == [] ==> r == Err(BadRequest(MissingFields))
    ensures prompt != [] && ranked != [] && |ranked| != 8 ==> r == Err(BadRequest(NotEightRanked))
    ensures r.Ok? ==> r.value.prompt == encode(WrapPrompt(prompt)) && |r.value.ranked| == 8
  {
    if prompt == [] || ranked == [] then Err(BadRequest(MissingFields))
    else if |ranked| != 8 then Err(BadRequest(NotEightRanked))
    else Ok(GrpoStep(encode(ConversationStart + Them + prompt + Me), ranked))
  }

  /**
   * The endpoint as written: the step it calls, `model.do_grpo_step`, is not
   * a method of the Model class, so the AttributeError is caught and every
   * request that passes the checks is answered with a 500.
   */
  function GrpoTrainAsWritten(encode: string -> seq<TokenId>, prompt: string, ranked: seq<(seq<TokenId>, int)>)
    : (r: Result<GrpoStep, Failure>)
  {
    match GrpoTrainRequest(encode, prompt, ranked)
    case Err(e) => Err(e)
    case Ok(_) => Err(ServerError)
  }

  /** No request at all gets through the endpoint as written, though eight ranked entries pass its checks. */
  lemma GrpoTrainAlwaysFails(encode: string -> seq<TokenId>, prompt: string, ranked: seq<(seq<TokenId>, int)>)
    ensures GrpoTrainAsWritten(encode, prompt, ranked).Err?
    ensures prompt != [] && |ranked| == 8 ==>
      GrpoTrainRequest(encode, prompt, ranked).Ok? && GrpoTrainAsWritten(encode, prompt, ranked) == Err(ServerError)
  {
  }

  /** What a valid `train` request hands to the preference step. */
  datatype DpoStep = DpoStep(prompt: seq<TokenId>, positive: seq<TokenId>, negative: seq<TokenId>,
                             positivePaths: nat, negativePaths: nat)

  /** The checks of app.py:386-387: only the first positive and first negative path are trained on. */
  function TrainRequest(encode: string -> seq<TokenId>, prompt: string,
                        positive: seq<seq<TokenId>>, negative: seq<seq<TokenId>>): (r: Result<DpoStep, Failure>)
    ensures r.Ok? <==> prompt != [] && positive != [] && negative != []
    ensures r.Err? ==> r.error == BadRequest(MissingFields)
    ensures r.Ok? ==>
      && r.value.prompt == encode(prompt)
      && r.value.positive == positive[0] && r.value.negative == negative[0]
      && r.value.positivePaths == |positive| && r.value.negativePaths == |negative|
  {
    if prompt == [] || positive == [] || negative == [] then Err(BadRequest(MissingFields))
    else Ok(DpoStep(encode(prompt), positive[0], negative[0], |positive|, |negative|))
  }
}

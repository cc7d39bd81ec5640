/**
 * The bounded token buffer every oracle call sees (model.py). A buffer never
 * holds more than ContextLength tokens; appending to a full buffer drops the
 * oldest token. The class Model holds the running buffer that `prime` and
 * `next_token` reassign.
 */
module ContextWindow {
  import opened Wrappers

  /** `vocab_size` (model.py:19): `torch.topk` over the vocabulary raises for a k above it. */
  const VocabSize: nat := 8192

  /** A vocabulary index. */
  type TokenId = nat

  /** `self.context_length` (model.py:17). */
  const ContextLength: nat := 256

  /** One entry of the oracle's top-k answer: `(token_id, token_str, probability)`. */
  datatype Candidate = Candidate(tokenId: TokenId, tokenStr: string, probability: real)

  /**
   * The language model seen from outside: the forward pass, softmax, `torch.topk`
   * and `decode` of each index, as an uninterpreted function of the buffer and k.
   */
  type TopK = (seq<TokenId>, nat) -> seq<Candidate>

  /**
   * The sampler: forward pass, temperature, top-k or nucleus cut and the
   * multinomial draw, as a function of the buffer and the position of the draw
   * in the random stream.
   */
  type Sampler = (seq<TokenId>, nat) -> TokenId

  /** `tokens[-context_length:]` when the sequence is too long (model.py:83-84). */
  function Truncate(tokens: seq<TokenId>): (r: seq<TokenId>)
    ensures |r| == if |tokens| > ContextLength then ContextLength else |tokens|
    ensures r == tokens[|tokens| - |r|..]
  {
    if |tokens| > ContextLength then tokens[|tokens| - ContextLength..] else tokens
  }

  /** Appending one token with drop-oldest eviction (model.py:145-151, 216-220). */
  function Push(buf: seq<TokenId>, t: TokenId): seq<TokenId>
  {
    if |buf| >= ContextLength then buf[1..] + [t] else buf + [t]
  }

  /**
   * A push keeps the bound, ends with the new token, grows the buffer by one
   * until it is full, and what precedes the new token is the most recent part
   * of the old buffer, in order.
   */
  lemma PushKeepsRecent(buf: seq<TokenId>, t: TokenId)
    ensures var r := Push(buf, t);
      && (|buf| <= ContextLength ==> |r| <= ContextLength)
      && |r| == (if |buf| >= ContextLength then |buf| else |buf| + 1)
      && r[|r| - 1] == t
      && forall i :: 0 <= i < |r| - 1 ==> r[i] == buf[|buf| - (|r| - 1) + i]
  {
  }

  /** Truncating after appending is all a push does to a buffer within the bound. */
  lemma PushIsTruncate(buf: seq<TokenId>, t: TokenId)
    requires |buf| <= ContextLength
    ensures Push(buf, t) == Truncate(buf + [t])
  {
  }

  /** Truncating twice keeps the same recent tokens as truncating once. */
  lemma TruncateAbsorbs(x: seq<TokenId>, y: seq<TokenId>)
    ensures Truncate(Truncate(x) + y) == Truncate(x + y)
  {
    var tx := Truncate(x);
    var n := |Truncate(x + y)|;
    assert |Truncate(tx + y)| == n;
    assert forall i :: 0 <= i < n ==> Truncate(tx + y)[i] == Truncate(x + y)[i];
  }

  /** Pushing the tokens of `path` one after the other. */
  function Replay(buf: seq<TokenId>, path: seq<TokenId>): seq<TokenId>
    decreases |path|
  {
    if path == [] then buf else Replay(Push(buf, path[0]), path[1..])
  }

  /** Appending a path is appending its first token and then the rest. */
  lemma ConsSplit(buf: seq<TokenId>, path: seq<TokenId>)
    requires path != []
    ensures buf + [path[0]] + path[1..] == buf + path
  {
    assert path == [path[0]] + path[1..];
  }

  /**
   * Replaying a path into a buffer within the bound leaves exactly the most
   * recent ContextLength tokens of buffer-then-path.
   */
  lemma {:induction false} ReplayIsTruncatedConcat(buf: seq<TokenId>, path: seq<TokenId>)
    requires |buf| <= ContextLength
    ensures Replay(buf, path) == Truncate(buf + path)
    decreases |path|
  {
    if path == [] {
      assert buf + path == buf;
    } else {
      var next := Push(buf, path[0]);
      PushKeepsRecent(buf, path[0]);
      PushIsTruncate(buf, path[0]);
      ReplayIsTruncatedConcat(next, path[1..]);
      TruncateAbsorbs(buf + [path[0]], path[1..]);
      ConsSplit(buf, path);
      calc {
        Replay(buf, path);
        Replay(next, path[1..]);
        Truncate(next + path[1..]);
        Truncate(Truncate(buf + [path[0]]) + path[1..]);
        Truncate(buf + path);
      }
    }
  }

  /** Replaying one more token is one more push. */
  lemma {:induction false} ReplaySnoc(buf: seq<TokenId>, path: seq<TokenId>, t: TokenId)
    ensures Replay(buf, path + [t]) == Push(Replay(buf, path), t)
    decreases |path|
  {
    if path == [] {
      assert path + [t] == [t];
    } else {
      assert (path + [t])[1..] == path[1..] + [t];
      ReplaySnoc(Push(buf, path[0]), path[1..], t);
    }
  }

  /** One more token of a path, appended and truncated, continues its replay within the bound. */
  lemma ReplayStep(start: seq<TokenId>, path: seq<TokenId>, j: nat, tokens: seq<TokenId>)
    requires j < |path| && |tokens| <= ContextLength && tokens == Replay(start, path[..j])
    ensures Truncate(tokens + [path[j]]) == Replay(start, path[..j + 1])
    ensures |Truncate(tokens + [path[j]])| <= ContextLength
  {
    PushIsTruncate(tokens, path[j]);
    assert path[..j + 1] == path[..j] + [path[j]];
    ReplaySnoc(start, path[..j], path[j]);
  }

  /** The running state of model.py's `Model`: its token buffer and tokenizer. */
  class Model {
    /** The tokenizer's `encode` and `decode`, supplied from outside. */
    const encode: string -> seq<TokenId>
    const decode: seq<TokenId> -> string
    /** `current_tokens`; `primed` is false while it is still `None`. */
    var currentTokens: seq<TokenId>
    var primed: bool
    /** How many draws the sampler has consumed from the random stream. */
    var draws: nat

    ghost predicate Valid()
      reads this
    {
      |currentTokens| <= ContextLength && (!primed ==> currentTokens == [])
    }

    constructor (encode: string -> seq<TokenId>, decode: seq<TokenId> -> string)
      ensures Valid() && !primed && draws == 0
      ensures this.encode == encode && this.decode == decode
    {
      this.encode := encode;
      this.decode := decode;
      currentTokens := [];
      primed := false;
      draws := 0;
    }

    /** `prime`: the buffer becomes the last ContextLength tokens of the encoded prompt. */
    method Prime(prompt: string)
      modifies this
      ensures Valid() && primed
      ensures currentTokens == Truncate(encode(prompt))
      ensures draws == old(draws)
    {
      var tokens := encode(prompt);
      if |tokens| > ContextLength {
        tokens := tokens[|tokens| - ContextLength..];
      }
      currentTokens := tokens;
      primed := true;
    }

    /**
     * `next_token`: draws one token, pushes it into the buffer and returns its
     * text; `None` is the RuntimeError raised before the first `prime`.
     */
    method NextToken(sample: Sampler) returns (r: Option<string>)
      requires Valid()
      modifies this
      ensures Valid() && primed == old(primed)
      ensures !old(primed) ==> r == None && currentTokens == old(currentTokens) && draws == old(draws)
      ensures old(primed) ==>
        var id := sample(old(currentTokens), old(draws));
        && r == Some(decode([id]))
        && currentTokens == Push(old(currentTokens), id)
        && draws == old(draws) + 1
    {
      if !primed {
        return None;
      }
      var chosen := sample(currentTokens, draws);
      draws := draws + 1;
      if |currentTokens| >= ContextLength {
        currentTokens := currentTokens[1..] + [chosen];
      } else {
        currentTokens := currentTokens + [chosen];
      }
      r := Some(decode([chosen]));
    }
  }
}

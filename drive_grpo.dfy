/**
 * The explorer's GRPO mode (static/js/drive-grpo.js): the ranking the user
 * builds with the keys a-h and Backspace, the request that asks for eight
 * responses and the line buffering of its event stream, the training
 * payload and the history entry of a submission, and the reset.
 */
module DriveGrpo {
  import opened Wrappers
  import opened Text
  import Server

  type TokenId = nat
  type GrpoResponse = Server.GrpoResponse

  /** The eight response rows, lettered a to h. */
  const RankCount: nat := 8

  // ---------------------------------------------------------------------
  // The ranking (drive-grpo.js:162-188)
  // ---------------------------------------------------------------------

  predicate Distinct(xs: seq<int>) {
    forall i, j :: 0 <= i < j < |xs| ==> xs[i] != xs[j]
  }

  /** What `grpoRankings` always is: at most eight distinct row indices, best first. */
  predicate Ranking(xs: seq<int>) {
    |xs| <= RankCount && Distinct(xs) && forall i :: 0 <= i < |xs| ==> 0 <= xs[i] < RankCount
  }

  /** `letter.charCodeAt(0) - 'a'.charCodeAt(0)`. */
  function LetterIndex(letter: char): (r: int)
    ensures 'a' <= letter <= 'h' <==> 0 <= r < RankCount
  {
    (letter as int) - ('a' as int)
  }

  /** The letter of row `i`, `letters[i]`. */
  function Letter(i: int): (c: char)
    requires 0 <= i < RankCount
    ensures 'a' <= c <= 'h' && LetterIndex(c) == i
  {
    ['a', 'b', 'c', 'd', 'e', 'f', 'g', 'h'][i]
  }

  /**
   * `handleGrpoKeyPress` on the list: ignored while generating, once eight
   * are ranked, or when the row is ranked already; otherwise the row is
   * ranked next.
   */
  function Press(rs: seq<int>, generating: bool, letter: char): (r: seq<int>)
    ensures r == rs || r == rs + [LetterIndex(letter)]
    ensures r != rs <==> !generating && |rs| < RankCount && LetterIndex(letter) !in rs
    ensures Ranking(rs) && 'a' <= letter <= 'h' ==> Ranking(r)
  {
    if generating || |rs| >= RankCount then rs
    else if LetterIndex(letter) in rs then rs
    else rs + [LetterIndex(letter)]
  }

  /** `handleGrpoBackspace` on the list: the last ranked row is dropped, unless generating or nothing is ranked. */
  function Undo(rs: seq<int>, generating: bool): (r: seq<int>)
    ensures generating || rs == [] ==> r == rs
    ensures !generating && rs != [] ==> r + [rs[|rs| - 1]] == rs
    ensures Ranking(rs) ==> Ranking(r)
  {
    if generating || rs == [] then rs else rs[..|rs| - 1]
  }

  /** A key press that ranked a row is undone by Backspace. */
  lemma UndoPress(rs: seq<int>, generating: bool, letter: char)
    requires Press(rs, generating, letter) != rs
    ensures Undo(Press(rs, generating, letter), generating) == rs
  {
    assert (rs + [LetterIndex(letter)])[..|rs|] == rs;
  }

  /** Backspace is undone by pressing the letter of the row it dropped. */
  lemma PressUndo(rs: seq<int>, generating: bool)
    requires Ranking(rs) && !generating && rs != []
    ensures Press(Undo(rs, generating), generating, Letter(rs[|rs| - 1])) == rs
  {
    var last := rs[|rs| - 1];
    var front := rs[..|rs| - 1];
    assert front + [last] == rs;
  }

  /** The values of a sequence, as a set. */
  function Elems(xs: seq<int>): (r: set<int>)
    ensures forall x :: x in r <==> x in xs
  {
    if xs == [] then {} else Elems(xs[..|xs| - 1]) + {xs[|xs| - 1]}
  }

  /** A sequence of distinct values has as many values as entries. */
  lemma {:induction false} DistinctCard(xs: seq<int>)
    requires Distinct(xs)
    ensures |Elems(xs)| == |xs|
  {
    if xs != [] {
      var front := xs[..|xs| - 1];
      assert Distinct(front);
      DistinctCard(front);
      assert xs[|xs| - 1] !in front;
    }
  }

  /** The set `{0, ..., n-1}`. */
  function Below(n: nat): (r: set<int>)
    ensures forall i :: i in r <==> 0 <= i < n
    ensures |r| == n
  {
    if n == 0 then {} else Below(n - 1) + {n - 1}
  }

  /** A subset as large as its superset is the whole superset. */
  lemma SubsetOfSameSize(a: set<int>, b: set<int>)
    requires a <= b && |a| == |b|
    ensures a == b
  {
    assert |b - a| == |b| - |a|;
    assert b - a == {};
  }

  /** `n` distinct values below `n` are all the values below `n`. */
  lemma Pigeonhole(xs: seq<int>, n: nat)
    requires Distinct(xs) && |xs| == n
    requires forall i :: 0 <= i < |xs| ==> 0 <= xs[i] < n
    ensures forall v :: 0 <= v < n ==> v in xs
  {
    DistinctCard(xs);
    assert Elems(xs) <= Below(n) by {
      forall x | x in Elems(xs)
        ensures x in Below(n)
      {
        assert x in xs;
      }
    }
    SubsetOfSameSize(Elems(xs), Below(n));
    forall v | 0 <= v < n
      ensures v in xs
    {
      assert v in Below(n);
    }
  }

  /** Eight ranked rows rank every row: a complete ranking is a permutation of the rows. */
  lemma FullRanking(rs: seq<int>)
    requires Ranking(rs) && |rs| == RankCount
    ensures forall i :: 0 <= i < RankCount ==> i in rs
  {
    Pigeonhole(rs, RankCount);
  }

  // ---------------------------------------------------------------------
  // Rank badges (drive-grpo.js:216, 222-227)
  // ---------------------------------------------------------------------

  /** `getOrdinalSuffix`. */
  function OrdinalSuffix(n: int): (r: string)
    ensures |r| == 2
    ensures r == "st" <==> n == 1
    ensures r == "nd" <==> n == 2
    ensures r == "rd" <==> n == 3
    ensures r == "th" <==> n != 1 && n != 2 && n != 3
  {
    if n == 1 then "st" else if n == 2 then "nd" else if n == 3 then "rd" else "th"
  }

  /** The badge text `${rank}${getOrdinalSuffix(rank)}`. */
  function Badge(rank: nat): string {
    NatToString(rank) + OrdinalSuffix(rank)
  }

  /** No two ranks show the same badge. */
  lemma BadgeInjective(a: nat, b: nat)
    requires Badge(a) == Badge(b)
    ensures a == b
  {
    var x, y := Badge(a), Badge(b);
    assert NatToString(a) == x[..|x| - 2];
    assert NatToString(b) == y[..|y| - 2];
    NatToStringInjective(a, b);
  }

  // ---------------------------------------------------------------------
  // Asking for eight responses (drive-grpo.js:42-61)
  // ---------------------------------------------------------------------

  /** The body of a `/api/grpo-generate` request. */
  datatype GenerateCall = GenerateCall(prompt: string, temperature: real, topK: int, topP: real, useTopK: bool)

  /** `Math.round`: the nearest integer, halves rounded up. */
  function Round(x: real): (r: int)
    ensures r as real - 0.5 <= x < r as real + 0.5
  {
    (x + 0.5).Floor
  }

  /**
   * The sampling settings of the request: with top-k the parameter rounded
   * is `top_k` and `top_p` is 0.9; with top-p the parameter is `top_p` and
   * `top_k` is 5. The temperature is 1.
   */
  function GenerateRequest(prompt: string, useTopK: bool, param: real): (r: GenerateCall)
    ensures r.prompt == prompt && r.temperature == 1.0 && r.useTopK == useTopK
    ensures useTopK ==> r.topK as real - 0.5 <= param < r.topK as real + 0.5 && r.topP == 0.9
    ensures !useTopK ==> r.topK == 5 && r.topP == param
  {
    GenerateCall(prompt, 1.0, if useTopK then Round(param) else 5, if useTopK then 0.9 else param, useTopK)
  }

  // ---------------------------------------------------------------------
  // The event stream (drive-grpo.js:63-158)
  // ---------------------------------------------------------------------

  /**
   * The parsed `data:` payload of one event, in the order the handler tests
   * its fields: `error`, then `all_done`, then `done`, else a token.
   */
  datatype GrpoEvent =
    | ErrorEvent
    | AllDone(responses: seq<GrpoResponse>)
    | ResponseDone(index: int)
    | TokenEvent(index: int, token: string)

  /** `JSON.parse`: `None` for text that is not JSON. */
  type Parser = string -> Option<GrpoEvent>

  predicate NoNewline(s: string) {
    forall i :: 0 <= i < |s| ==> s[i] != '\n'
  }

  predicate AllLines(xs: seq<string>) {
    forall i :: 0 <= i < |xs| ==> NoNewline(xs[i])
  }

  /** `s.split('\n')`. */
  function SplitLines(s: string): (r: seq<string>)
    ensures |r| >= 1 && AllLines(r)
  {
    if s == [] then [""]
    else if s[0] == '\n' then [""] + SplitLines(s[1..])
    else
      var t := SplitLines(s[1..]);
      [[s[0]] + t[0]] + t[1..]
  }

  /** Joining the pieces of a split with newlines gives the text back. */
  lemma {:induction false} JoinSplitLines(s: string)
    ensures Join(SplitLines(s), "\n") == s
  {
    if s != [] {
      JoinSplitLines(s[1..]);
      var t := SplitLines(s[1..]);
      if s[0] == '\n' {
        assert SplitLines(s) == [""] + t;
        assert ([""] + t)[1..] == t;
      } else {
        assert SplitLines(s) == [[s[0]] + t[0]] + t[1..];
        if |t| > 1 {
          assert ([[s[0]] + t[0]] + t[1..])[1..] == t[1..];
        }
      }
    }
  }

  /** A line splits into itself. */
  lemma {:induction false} SplitLine(a: string)
    requires NoNewline(a)
    ensures SplitLines(a) == [a]
  {
    if a != [] {
      SplitLine(a[1..]);
      assert [a[0]] + a[1..] == a;
    }
  }

  /** A line followed by a newline splits off as the first piece. */
  lemma {:induction false} SplitFirstLine(a: string, rest: string)
    requires NoNewline(a)
    ensures SplitLines(a + "\n" + rest) == [a] + SplitLines(rest)
  {
    var s := a + "\n" + rest;
    if a == [] {
      assert s == "\n" + rest && s[1..] == rest;
    } else {
      assert s[0] == a[0] && s[1..] == a[1..] + "\n" + rest;
      SplitFirstLine(a[1..], rest);
      assert [a[0]] + a[1..] == a;
    }
  }

  /** Splitting the newline-joined lines gives the lines back. */
  lemma {:induction false} SplitJoinLines(xs: seq<string>)
    requires xs != [] && AllLines(xs)
    ensures SplitLines(Join(xs, "\n")) == xs
  {
    if |xs| == 1 {
      SplitLine(xs[0]);
    } else {
      SplitJoinLines(xs[1..]);
      SplitFirstLine(xs[0], Join(xs[1..], "\n"));
      assert [xs[0]] + xs[1..] == xs;
    }
  }

  /** Joining two non-empty lists of lines puts one newline between them. */
  lemma {:induction false} JoinAppend(a: seq<string>, b: seq<string>)
    requires a != [] && b != []
    ensures Join(a + b, "\n") == Join(a, "\n") + "\n" + Join(b, "\n")
  {
    if |a| > 1 {
      JoinAppend(a[1..], b);
      assert (a + b)[1..] == a[1..] + b;
    } else {
      assert (a + b)[1..] == b;
    }
  }

  /** The decoded text of the chunks read so far: the concatenation. */
  function Concat(chunks: seq<string>): string {
    if chunks == [] then "" else Concat(chunks[..|chunks| - 1]) + chunks[|chunks| - 1]
  }

  /** The responses of an `all_done` event on this line, if it is one. */
  function AllDoneOf(parse: Parser, line: string): Option<seq<GrpoResponse>> {
    if StartsWith(line, "data: ") && parse(line[6..]).Some? && parse(line[6..]).value.AllDone?
    then Some(parse(line[6..]).value.responses)
    else None
  }

  /** What the stream changes of the GRPO state: `grpoResponses` and `grpoGenerating`. */
  datatype View = View(responses: seq<GrpoResponse>, generating: bool)

  /** `processLine`: only an `all_done` event changes the state; the others update rows of the page. */
  function ApplyLine(parse: Parser, v: View, line: string): View {
    match AllDoneOf(parse, line)
    case Some(rs) => View(rs, false)
    case None => v
  }

  /** The lines processed one after the other. */
  function ApplyLines(parse: Parser, v: View, lines: seq<string>): View {
    if lines == [] then v else ApplyLine(parse, ApplyLines(parse, v, lines[..|lines| - 1]), lines[|lines| - 1])
  }

  /** The responses of the last `all_done` event among the lines. */
  function LastAllDone(parse: Parser, lines: seq<string>): Option<seq<GrpoResponse>> {
    if lines == [] then None
    else if AllDoneOf(parse, lines[|lines| - 1]).Some? then AllDoneOf(parse, lines[|lines| - 1])
    else LastAllDone(parse, lines[..|lines| - 1])
  }

  /** Processing lines leaves the responses of the last `all_done` event, and clears the flag when there is one. */
  lemma {:induction false} ApplyLinesIsLastAllDone(parse: Parser, v: View, lines: seq<string>)
    ensures var w := ApplyLines(parse, v, lines);
      match LastAllDone(parse, lines)
      case Some(rs) => w == View(rs, false)
      case None => w == v
  {
    if lines != [] {
      ApplyLinesIsLastAllDone(parse, v, lines[..|lines| - 1]);
    }
  }

  /** Processing two batches of lines is processing them together. */
  lemma {:induction false} ApplyLinesAppend(parse: Parser, v: View, a: seq<string>, b: seq<string>)
    ensures ApplyLines(parse, v, a + b) == ApplyLines(parse, ApplyLines(parse, v, a), b)
    decreases |b|
  {
    if b == [] {
      assert a + b == a;
    } else {
      ApplyLinesAppend(parse, v, a, b[..|b| - 1]);
      assert (a + b)[..|a + b| - 1] == a + b[..|b| - 1];
    }
  }

  /** The characters JavaScript's `trim()` removes: white space and line terminators. */
  predicate IsJsSpace(c: char) {
    c == ' ' || c == '\t' || c == '\n' || c == '\r' || c == '\U{0B}' || c == '\U{0C}'
    || c == '\U{A0}' || c == '\U{1680}' || ('\U{2000}' <= c <= '\U{200A}')
    || c == '\U{2028}' || c == '\U{2029}' || c == '\U{202F}' || c == '\U{205F}'
    || c == '\U{3000}' || c == '\U{FEFF}'
  }

  /** `!s.trim()`. */
  predicate JsBlank(s: string) {
    forall i :: 0 <= i < |s| ==> IsJsSpace(s[i])
  }

  /** A blank line is not an event line. */
  lemma BlankIsNoEvent(parse: Parser, line: string)
    requires JsBlank(line)
    ensures AllDoneOf(parse, line) == None
  {
    if |line| >= 6 {
      assert IsJsSpace(line[..6][0]);
    }
  }

  // ---------------------------------------------------------------------
  // Submission and history (drive-grpo.js:230-302)
  // ---------------------------------------------------------------------

  /** `[response.tokens, rank]` entries of `responses_ranked`, rank 1 first; `None` when a ranked row has no response (the TypeError the handler catches). */
  function RankedPayload(responses: seq<GrpoResponse>, rankings: seq<int>): (r: Option<seq<(seq<TokenId>, int)>>)
    ensures r.Some? <==> forall i :: 0 <= i < |rankings| ==> 0 <= rankings[i] < |responses|
    ensures r.Some? ==>
      && |r.value| == |rankings|
      && (forall i :: 0 <= i < |rankings| ==> r.value[i] == (responses[rankings[i]].tokens, i + 1))
  {
    if forall i :: 0 <= i < |rankings| ==> 0 <= rankings[i] < |responses| then
      Some(seq(|rankings|, i requires 0 <= i < |rankings| => (responses[rankings[i]].tokens, i + 1)))
    else None
  }

  /**
   * A complete ranking of eight responses is a payload the server's checks
   * accept, and every response is in it (once, at the rank of its row).
   */
  lemma PayloadAccepted(encode: string -> seq<TokenId>, prompt: string, responses: seq<GrpoResponse>, rankings: seq<int>)
    requires Ranking(rankings) && |rankings| == RankCount && |responses| == RankCount && prompt != []
    ensures RankedPayload(responses, rankings).Some?
    ensures Server.GrpoTrainRequest(encode, prompt, RankedPayload(responses, rankings).value).Ok?
    ensures forall j :: 0 <= j < RankCount ==> j in rankings
  {
    FullRanking(rankings);
  }

  /** The first 40 characters of a response, with `...` when it was longer. */
  function Preview(text: string): (r: string)
    ensures |text| <= 40 ==> r == text
    ensures |text| > 40 ==> |r| == 43 && r[..40] == text[..40] && r[40..] == "..."
  {
    if |text| > 40 then text[..40] + "..." else text
  }

  /** `${rank}. (${letter}) ${preview}`. */
  function RankedPath(rank: nat, row: int, text: string): string
    requires 0 <= row < RankCount
  {
    NatToString(rank) + ". (" + [Letter(row)] + ") " + Preview(text)
  }

  /** `rankedPaths`: the ranked rows in order. */
  function RankedPaths(responses: seq<GrpoResponse>, rankings: seq<int>): (r: seq<string>)
    requires Ranking(rankings)
    requires forall i :: 0 <= i < |rankings| ==> rankings[i] < |responses|
    ensures |r| == |rankings|
  {
    seq(|rankings|, i requires 0 <= i < |rankings| => RankedPath(i + 1, rankings[i], responses[rankings[i]].text))
  }

  /** One entry of `trainingHistory` of type `'grpo'`. */
  datatype HistoryEntry = HistoryEntry(
    timestamp: int,
    kind: string,
    positiveChange: real,
    negativeChange: real,
    positivePaths: seq<string>,
    negativePaths: seq<string>,
    allChanges: seq<real>)

  /** `probability_changes[i] || 0`. */
  function ChangeAt(changes: seq<real>, i: nat): real {
    if i < |changes| then changes[i] else 0.0
  }

  /**
   * `addGrpoToHistory`: the first and eighth probability changes, and the
   * ranked paths split after the fourth.
   */
  function GrpoHistoryEntry(now: int, changes: seq<real>, responses: seq<GrpoResponse>, rankings: seq<int>): HistoryEntry
    requires Ranking(rankings) && |rankings| == RankCount
    requires forall i :: 0 <= i < |rankings| ==> rankings[i] < |responses|
  {
    var paths := RankedPaths(responses, rankings);
    HistoryEntry(now, "grpo", ChangeAt(changes, 0), ChangeAt(changes, 7), paths[..4], paths[4..8], changes)
  }

  /**
   * The history entry splits the ranking in halves: the positive paths are
   * ranks 1 to 4 and the negative ones ranks 5 to 8, each naming its row's
   * letter, and together they are the whole ranking.
   */
  lemma HistorySplitsRanking(now: int, changes: seq<real>, responses: seq<GrpoResponse>, rankings: seq<int>)
    requires Ranking(rankings) && |rankings| == RankCount
    requires forall i :: 0 <= i < |rankings| ==> rankings[i] < |responses|
    ensures var e := GrpoHistoryEntry(now, changes, responses, rankings);
      && |e.positivePaths| == 4 && |e.negativePaths| == 4
      && e.positivePaths + e.negativePaths == RankedPaths(responses, rankings)
      && (forall i :: 0 <= i < 4 ==>
            StartsWith(e.positivePaths[i], NatToString(i + 1) + ". (" + [Letter(rankings[i])] + ") "))
      && (forall i :: 0 <= i < 4 ==>
            StartsWith(e.negativePaths[i], NatToString(i + 5) + ". (" + [Letter(rankings[i + 4])] + ") "))
  {
    var e := GrpoHistoryEntry(now, changes, responses, rankings);
    var paths := RankedPaths(responses, rankings);
    assert paths[..4] + paths[4..8] == paths;
    forall i | 0 <= i < 4
      ensures StartsWith(e.positivePaths[i], NatToString(i + 1) + ". (" + [Letter(rankings[i])] + ") ")
      ensures StartsWith(e.negativePaths[i], NatToString(i + 5) + ". (" + [Letter(rankings[i + 4])] + ") ")
    {
      var h1 := NatToString(i + 1) + ". (" + [Letter(rankings[i])] + ") ";
      var h2 := NatToString(i + 5) + ". (" + [Letter(rankings[i + 4])] + ") ";
      assert e.positivePaths[i] == h1 + Preview(responses[rankings[i]].text);
      assert e.negativePaths[i] == h2 + Preview(responses[rankings[i + 4]].text);
      assert (h1 + Preview(responses[rankings[i]].text))[..|h1|] == h1;
      assert (h2 + Preview(responses[rankings[i + 4]].text))[..|h2|] == h2;
    }
  }

  /** The body of a `/api/grpo-train` request. */
  datatype TrainCall = TrainCall(prompt: string, ranked: seq<(seq<TokenId>, int)>)

  /** The server: `probability_changes` of an ok answer, `None` for an error status or a failed fetch. */
  type TrainServer = TrainCall -> Option<seq<real>>

  // ---------------------------------------------------------------------
  // The GRPO globals and their handlers
  // ---------------------------------------------------------------------

  class Grpo {
    /** `originalPrompt`. */
    var prompt: string
    var responses: seq<GrpoResponse>
    var rankings: seq<int>
    var generating: bool
    var currentIndex: nat
    var history: seq<HistoryEntry>

    ghost predicate Valid()
      reads this
    {
      Ranking(rankings)
    }

    /** The page's start: nothing generated, nothing ranked, no history. */
    constructor (prompt: string)
      ensures Valid()
      ensures this.prompt == prompt && responses == [] && rankings == [] && !generating
      ensures currentIndex == 0 && history == []
    {
      this.prompt := prompt;
      responses, rankings, generating, currentIndex, history := [], [], false, 0, [];
    }

    /** `handleGrpoKeyPress`, called for the keys a-h (and A-H lowered) only. */
    method KeyPress(letter: char)
      requires Valid() && 'a' <= letter <= 'h'
      modifies this`rankings
      ensures Valid()
      ensures rankings == Press(old(rankings), generating, letter)
    {
      if generating {
        return;
      }
      if |rankings| >= RankCount {
        return;
      }
      var index := (letter as int) - ('a' as int);
      if index in rankings {
        return;
      }
      rankings := rankings + [index];
    }

    /** `handleGrpoBackspace`. */
    method Backspace()
      requires Valid()
      modifies this`rankings
      ensures Valid()
      ensures rankings == Undo(old(rankings), generating)
    {
      if generating {
        return;
      }
      if |rankings| == 0 {
        return;
      }
      rankings := rankings[..|rankings| - 1];
    }

    /** `resetGrpoState`. */
    method Reset()
      modifies this`responses, this`rankings, this`generating, this`currentIndex
      ensures Valid()
      ensures responses == [] && rankings == [] && !generating && currentIndex == 0
    {
      responses, rankings, generating, currentIndex := [], [], false, 0;
    }

    /** The part of `startGrpoGeneration` before its first `await`: the state is reset, generation marked running, and the request built. */
    method BeginGeneration(useTopK: bool, param: real) returns (call: GenerateCall)
      modifies this`responses, this`rankings, this`generating, this`currentIndex
      ensures Valid()
      ensures responses == [] && rankings == [] && generating && currentIndex == 0
      ensures call == GenerateRequest(prompt, useTopK, param)
    {
      responses, rankings, generating, currentIndex := [], [], true, 0;
      var topK := if useTopK then (param + 0.5).Floor else 5;
      var topP := if useTopK then 0.9 else param;
      call := GenerateCall(prompt, 1.0, topK, topP, useTopK);
    }

    /** `processLine`. */
    method ProcessLine(parse: Parser, line: string)
      modifies this`responses, this`generating
      ensures View(responses, generating) == ApplyLine(parse, old(View(responses, generating)), line)
    {
      if !StartsWith(line, "data: ") {
        return;
      }
      var data := parse(line[6..]);
      if data.None? {
        // invalid JSON is skipped
        return;
      }
      match data.value {
        case ErrorEvent =>
        case AllDone(rs) =>
          responses := rs;
          generating := false;
        case ResponseDone(_) =>
        case TokenEvent(_, _) =>
      }
    }

    /** `for (const line of lines) processLine(line)`. */
    method ProcessLines(parse: Parser, lines: seq<string>)
      modifies this`responses, this`generating
      ensures View(responses, generating) == ApplyLines(parse, old(View(responses, generating)), lines)
    {
      ghost var start := View(responses, generating);
      var j := 0;
      while j < |lines|
        invariant 0 <= j <= |lines|
        invariant View(responses, generating) == ApplyLines(parse, start, lines[..j])
      {
        ProcessLine(parse, lines[j]);
        assert lines[..j + 1][..j] == lines[..j];
        j := j + 1;
      }
      assert lines[..j] == lines;
    }

    /**
     * The rest of `startGrpoGeneration`: the decoded chunks are read in
     * order; each complete line is processed as soon as its newline
     * arrives and the unfinished tail is carried over; when the stream ends
     * (`broken` is a failed read, which skips the tail) a non-blank tail is
     * processed. However the text was cut into chunks, the responses are
     * those of the last `all_done` event of the whole text, and generation
     * is marked over.
     */
    method ReceiveStream(parse: Parser, chunks: seq<string>, broken: bool)
      modifies this`responses, this`generating
      ensures var lines := SplitLines(Concat(chunks));
        var seen := if broken then lines[..|lines| - 1] else lines;
        match LastAllDone(parse, seen)
        case Some(rs) => responses == rs
        case None => responses == old(responses)
      ensures !generating
    {
      ghost var start := View(responses, generating);
      var buffer := "";
      ghost var done: seq<string> := [];
      var n := 0;
      while n < |chunks|
        invariant 0 <= n <= |chunks|
        invariant AllLines(done) && NoNewline(buffer)
        invariant Join(done + [buffer], "\n") == Concat(chunks[..n])
        invariant View(responses, generating) == ApplyLines(parse, start, done)
      {
        ghost var tail := buffer;
        var text := buffer + chunks[n];
        var lines := SplitLines(text);
        buffer := lines[|lines| - 1];
        var complete := lines[..|lines| - 1];
        ghost var before := done;
        ProcessLines(parse, complete);
        ApplyLinesAppend(parse, start, before, complete);
        done := before + complete;
        JoinSplitLines(text);
        StepJoin(before, tail, chunks[..n], chunks[n], lines);
        FrontLast(before, lines);
        assert chunks[..n + 1][..n] == chunks[..n];
        n := n + 1;
      }
      assert chunks[..n] == chunks;
      SplitJoinLines(done + [buffer]);
      ghost var all := done + [buffer];
      assert all[..|all| - 1] == done;
      if !broken && !JsBlank(buffer) {
        var remaining := SplitLines(buffer);
        SplitLine(buffer);
        ProcessLines(parse, remaining);
        ApplyLinesAppend(parse, start, done, [buffer]);
      } else if !broken {
        BlankIsNoEvent(parse, buffer);
      }
      ApplyLinesIsLastAllDone(parse, start, if broken then done else all);
      generating := false;
    }

    /**
     * `submitGrpoRankings`: nothing while generating or unless eight rows are
     * ranked, and nothing past the alert when a ranked row has no response
     * or the server fails. Otherwise the ranking is sent, its history entry
     * is appended, and a new generation begins.
     */
    method Submit(train: TrainServer, now: int) returns (call: Option<TrainCall>)
      requires Valid()
      modifies this`responses, this`rankings, this`generating, this`currentIndex, this`history
      ensures Valid()
      ensures var payload := RankedPayload(old(responses), old(rankings));
        if old(generating) || old(|rankings|) != RankCount || payload.None? then
          call == None && unchanged(this)
        else
          call == Some(TrainCall(prompt, payload.value))
          && (train(call.value).None? ==> unchanged(this))
          && (train(call.value).Some? ==>
                && history == old(history) + [GrpoHistoryEntry(now, train(call.value).value, old(responses), old(rankings))]
                && responses == [] && rankings == [] && generating && currentIndex == 0)
    {
      if generating || |rankings| != RankCount {
        return None;
      }
      var payload := RankedPayload(responses, rankings);
      if payload.None? {
        return None;
      }
      call := Some(TrainCall(prompt, payload.value));
      var answer := train(call.value);
      if answer.None? {
        return;
      }
      history := history + [GrpoHistoryEntry(now, answer.value, responses, rankings)];
      responses, rankings, generating, currentIndex := [], [], true, 0;
    }
  }

  /** One step of the read loop: the carried tail plus the new chunk is the next batch of lines. */
  lemma StepJoin(done: seq<string>, tail: string, read: seq<string>, chunk: string, lines: seq<string>)
    requires Join(done + [tail], "\n") == Concat(read)
    requires lines != [] && Join(lines, "\n") == tail + chunk
    ensures Join(done + lines, "\n") == Concat(read + [chunk])
  {
    assert (read + [chunk])[..|read|] == read;
    assert Concat(read + [chunk]) == Concat(read) + chunk;
    if done != [] {
      JoinAppend(done, lines);
      JoinAppend(done, [tail]);
      var front := Join(done, "\n") + "\n";
      calc {
        Join(done + lines, "\n");
        front + (tail + chunk);
        (front + tail) + chunk;
        Concat(read) + chunk;
      }
    } else {
      assert done + lines == lines;
      assert done + [tail] == [tail];
    }
  }

  /** A non-empty list is its front and its last element. */
  lemma FrontLast(done: seq<string>, xs: seq<string>)
    requires xs != []
    ensures done + xs == (done + xs[..|xs| - 1]) + [xs[|xs| - 1]]
  {
    assert xs == xs[..|xs| - 1] + [xs[|xs| - 1]];
  }
}

/**
 * data_dashboard.py after its queries: how `get_formatted_conversation`
 * turns the rows of a contact's chats into the training-format message list
 * (cleaning, reaction tokens, de-duplication, date order, merging of nearby
 * messages of theirs, automatic conversation starts), and how
 * `write_conversations` serialises it. Dates are integer seconds.
 */
module Dashboard {
  import opened Wrappers
  import opened Text
  import opened ChatText

  /** `SELF_ADDRESS` as shipped. */
  const SelfAddress := "PUT_YOUR_PHONE_NUMBER_HERE"
  /** Two of their messages at most this many seconds apart are merged. */
  const MergeWindow := 3600
  /** A gap of at least this many seconds starts a new conversation (72 hours). */
  const BreakGap := 259200

  newtype byte = x: int | 0 <= x < 256

  /** A row of the message query: date, sender handle (`""` for NULL), text (`""` for NULL), `attributedBody` (`[]` for NULL), `is_from_me`. */
  datatype Row = Row(date: int, sender: string, text: string, attributed: seq<byte>, isFromMe: bool)

  /** A message of the result: `role`, `text`, `date`. */
  datatype Msg = Msg(role: string, text: string, date: int)

  /** The reading of an `attributedBody` archive: foreign code, an oracle here. */
  type BodyDecoder = seq<byte> -> Option<string>

  // ---------------------------------------------------------------------
  // extract_text (data_dashboard.py:28-35)
  // ---------------------------------------------------------------------

  /** `extract_text`: the stripped plain text when it is not blank, otherwise what the archive yields. */
  function ExtractText(text: string, attributed: seq<byte>, decode: BodyDecoder): (r: Option<string>)
    ensures !IsBlank(text) ==> r == Some(Strip(text)) && IsTrimmed(r.value)
    ensures IsBlank(text) && attributed == [] ==> r == None
    ensures IsBlank(text) && attributed != [] ==> r == decode(attributed)
  {
    if !IsBlank(text) then
      StripEmptyIffBlank(text);
      StripIdempotent(text);
      TrimmedIffOwnStrip(Strip(text));
      Some(Strip(text))
    else if attributed == [] then None
    else decode(attributed)
  }

  // ---------------------------------------------------------------------
  // The message filter (data_dashboard.py:229-277)
  // ---------------------------------------------------------------------

  function RoleOf(isFromMe: bool): string {
    if isFromMe then Me else Them
  }

  /**
   * The text a message keeps: blank text, text with a URL and their
   * reactions are dropped; a reaction of mine becomes its token; U+FFFC is
   * removed and the text stripped; text left blank or holding U+FFFD is
   * dropped.
   */
  function FilterText(text: Option<string>, isFromMe: bool): (r: Option<string>)
    ensures r.Some? ==> text.Some? && !IsBlank(text.value) && !HasUrl(text.value)
    ensures r.Some? ==> IsTrimmed(r.value) && ObjectReplacement !in r.value && ReplacementChar !in r.value
    ensures text.Some? && !IsBlank(text.value) && !HasUrl(text.value) ==>
      match DashboardReaction(Strip(text.value))
      case Some(verb) => r == (if isFromMe then Some(ReactionToken(verb)) else None)
      case None => r == (if CleanBody(text.value) == [] || ReplacementChar in CleanBody(text.value) then None
                         else Some(CleanBody(text.value)))
  {
    if text.None? || IsBlank(text.value) then None
    else if HasUrl(text.value) then None
    else
      match DashboardReaction(Strip(text.value))
      case Some(verb) =>
        CleanReactionToken(verb);
        ReactionTokenPlain(verb);
        if isFromMe then Clean(ReactionToken(verb)) else None
      case None => Clean(text.value)
  }

  /** U+FFFC removed and the text stripped; dropped when blank or holding U+FFFD. */
  function Clean(t: string): (r: Option<string>)
    ensures r.Some? ==> IsTrimmed(r.value) && ObjectReplacement !in r.value && ReplacementChar !in r.value
    ensures r.Some? <==> CleanBody(t) != [] && ReplacementChar !in CleanBody(t)
    ensures r.Some? ==> r.value == CleanBody(t)
  {
    var cleaned := CleanBody(t);
    if cleaned == [] || ReplacementChar in cleaned then None else Some(cleaned)
  }

  /** The message one row contributes before de-duplication: none, or one. */
  function RowCandidates(r: Row, decode: BodyDecoder): seq<Msg> {
    match FilterText(ExtractText(r.text, r.attributed, decode), r.isFromMe)
    case Some(t) => [Msg(RoleOf(r.isFromMe), t, r.date)]
    case None => []
  }

  /** The candidates of a chat's rows, in order. */
  function Candidates(rows: seq<Row>, decode: BodyDecoder): seq<Msg> {
    if rows == [] then []
    else
      Candidates(rows[..|rows| - 1], decode)
      + RowCandidates(rows[|rows| - 1], decode)
  }

  /** `contact_match`: the first sender that is set and is not the own address. */
  function ContactMatch(rows: seq<Row>): (r: Option<string>)
    ensures r.Some? <==> exists i :: 0 <= i < |rows| && rows[i].sender != "" && rows[i].sender != SelfAddress
    ensures r.Some? ==> r.value != "" && r.value != SelfAddress
  {
    if rows == [] then None
    else if rows[0].sender != "" && rows[0].sender != SelfAddress then
      Some(rows[0].sender)
    else
      assert forall i :: 1 <= i < |rows| ==> rows[i] == rows[1..][i - 1];
      ContactMatch(rows[1..])
  }

  /** The match is the sender of the first row whose sender is set and is not the own address. */
  lemma {:induction false} ContactMatchIsFirst(rows: seq<Row>)
    requires ContactMatch(rows).Some?
    ensures exists i :: (0 <= i < |rows| && rows[i].sender == ContactMatch(rows).value &&
                         forall j :: 0 <= j < i ==> rows[j].sender == "" || rows[j].sender == SelfAddress)
  {
    if !(rows[0].sender != "" && rows[0].sender != SelfAddress) {
      var tail := rows[1..];
      ContactMatchIsFirst(tail);
      var i :| 0 <= i < |tail| && tail[i].sender == ContactMatch(tail).value &&
        (forall j :: 0 <= j < i ==> tail[j].sender == "" || tail[j].sender == SelfAddress);
      assert rows[i + 1] == tail[i];
      forall j | 0 <= j < i + 1
        ensures rows[j].sender == "" || rows[j].sender == SelfAddress
      {
        if j > 0 {
          assert rows[j] == tail[j - 1];
        }
      }
    }
  }

  /** `any(m[2] == SELF_ADDRESS for m in messages if m[2])`. */
  predicate InvolvesSelf(rows: seq<Row>) {
    exists i :: 0 <= i < |rows| && rows[i].sender != "" && rows[i].sender == SelfAddress
  }

  /** A chat is read for the contact when its first other sender is the contact and the own address never sends in it. */
  predicate ChatOf(contactId: string, rows: seq<Row>) {
    ContactMatch(rows) == Some(contactId) && !InvolvesSelf(rows)
  }

  /** The candidates of all chats read for the contact, chat after chat. */
  function AllCandidates(contactId: string, chats: seq<seq<Row>>, decode: BodyDecoder): seq<Msg> {
    if chats == [] then []
    else
      AllCandidates(contactId, chats[..|chats| - 1], decode)
      + (if ChatOf(contactId, chats[|chats| - 1]) then Candidates(chats[|chats| - 1], decode) else [])
  }

  // ---------------------------------------------------------------------
  // De-duplication on (date, is_from_me, text) (data_dashboard.py:257-266)
  // ---------------------------------------------------------------------

  /** The key of a message: the role stands for `is_from_me`, so the key is the message itself. */
  function Elems(xs: seq<Msg>): (r: set<Msg>)
    ensures forall m :: m in r <==> m in xs
  {
    if xs == [] then {} else Elems(xs[..|xs| - 1]) + {xs[|xs| - 1]}
  }

  lemma ElemsSnoc(xs: seq<Msg>, m: Msg)
    ensures Elems(xs + [m]) == Elems(xs) + {m}
  {
    assert (xs + [m])[..|xs|] == xs;
  }

  /** Each message whose key came earlier is skipped. */
  function Dedup(xs: seq<Msg>): seq<Msg> {
    if xs == [] then []
    else
      var front := Dedup(xs[..|xs| - 1]);
      if xs[|xs| - 1] in xs[..|xs| - 1] then front else front + [xs[|xs| - 1]]
  }

  predicate NoRepeats(xs: seq<Msg>) {
    forall i, j :: 0 <= i < j < |xs| ==> xs[i] != xs[j]
  }

  /** The first occurrence of every key is kept and every later one skipped: no repeats, and nothing else lost. */
  lemma {:induction false} DedupProperties(xs: seq<Msg>)
    ensures NoRepeats(Dedup(xs))
    ensures forall m :: m in Dedup(xs) <==> m in xs
    ensures |Dedup(xs)| <= |xs|
  {
    if xs != [] {
      var front := xs[..|xs| - 1];
      var last := xs[|xs| - 1];
      DedupProperties(front);
      assert forall m :: m in xs <==> m in front || m == last by {
        assert xs == front + [last];
      }
    }
  }

  /** The dedup step of the loop, where `seen` holds the keys of the earlier candidates. */
  lemma DedupSnoc(xs: seq<Msg>, m: Msg)
    ensures Dedup(xs + [m]) == if m in xs then Dedup(xs) else Dedup(xs) + [m]
  {
    assert (xs + [m])[..|xs|] == xs;
  }

  // ---------------------------------------------------------------------
  // get_formatted_conversation, up to the sort (data_dashboard.py:157-283)
  // ---------------------------------------------------------------------

  /** The per-row loop of one chat, skipping keys already seen. */
  method CollectChat(rows: seq<Row>, decode: BodyDecoder, ghost before: seq<Msg>,
                     seen0: set<Msg>, messages0: seq<Msg>)
    returns (seen: set<Msg>, messages: seq<Msg>)
    requires seen0 == Elems(before) && messages0 == Dedup(before)
    ensures seen == Elems(before + Candidates(rows, decode))
    ensures messages == Dedup(before + Candidates(rows, decode))
  {
    seen, messages := seen0, messages0;
    var i := 0;
    ghost var done := before;
    assert before + Candidates(rows[..0], decode) == before;
    while i < |rows|
      invariant 0 <= i <= |rows|
      invariant done == before + Candidates(rows[..i], decode)
      invariant seen == Elems(done) && messages == Dedup(done)
    {
      CandidatesStep(rows, i, decode, before);
      seen, messages := CollectRow(rows[i], decode, done, seen, messages);
      done := done + RowCandidates(rows[i], decode);
      i := i + 1;
    }
    assert rows[..i] == rows;
  }

  /** The body of the per-row loop: the row's text through the filter, kept when its key is new. */
  method CollectRow(r: Row, decode: BodyDecoder, ghost done: seq<Msg>, seen0: set<Msg>, messages0: seq<Msg>)
    returns (seen: set<Msg>, messages: seq<Msg>)
    requires seen0 == Elems(done) && messages0 == Dedup(done)
    ensures seen == Elems(done + RowCandidates(r, decode))
    ensures messages == Dedup(done + RowCandidates(r, decode))
  {
    seen, messages := seen0, messages0;
    var text := ExtractText(r.text, r.attributed, decode);
    var kept := FilterText(text, r.isFromMe);
    if kept.Some? {
      var m := Msg(RoleOf(r.isFromMe), kept.value, r.date);
      assert RowCandidates(r, decode) == [m];
      DedupSnoc(done, m);
      ElemsSnoc(done, m);
      if m !in seen {
        seen := seen + {m};
        messages := messages + [m];
      }
    } else {
      assert done + RowCandidates(r, decode) == done;
    }
  }

  /** One more row: its candidate, if any, joins the candidates. */
  lemma CandidatesStep(rows: seq<Row>, i: nat, decode: BodyDecoder, before: seq<Msg>)
    requires i < |rows|
    ensures before + Candidates(rows[..i + 1], decode) == (before + Candidates(rows[..i], decode)) + RowCandidates(rows[i], decode)
  {
    assert rows[..i + 1][..i] == rows[..i];
  }

  /** One more chat: its candidates join when it is a chat of the contact, and nothing changes otherwise. */
  lemma AllCandidatesStep(contactId: string, chats: seq<seq<Row>>, c: nat, decode: BodyDecoder)
    requires c < |chats|
    ensures var prev := AllCandidates(contactId, chats[..c], decode);
      && (ChatOf(contactId, chats[c]) ==> AllCandidates(contactId, chats[..c + 1], decode) == prev + Candidates(chats[c], decode))
      && (!ChatOf(contactId, chats[c]) ==> AllCandidates(contactId, chats[..c + 1], decode) == prev)
  {
    assert chats[..c + 1][..c] == chats[..c];
    var prev := AllCandidates(contactId, chats[..c], decode);
    assert prev + [] == prev;
  }

  /** The chat loop: each chat of the contact without the own address, its rows through the filter, first occurrences only. */
  method CollectMessages(contactId: string, chats: seq<seq<Row>>, decode: BodyDecoder) returns (messages: seq<Msg>)
    ensures messages == Dedup(AllCandidates(contactId, chats, decode))
  {
    var seen: set<Msg> := {};
    messages := [];
    var c := 0;
    while c < |chats|
      invariant 0 <= c <= |chats|
      invariant seen == Elems(AllCandidates(contactId, chats[..c], decode))
      invariant messages == Dedup(AllCandidates(contactId, chats[..c], decode))
    {
      AllCandidatesStep(contactId, chats, c, decode);
      var rows := chats[c];
      ghost var prev := AllCandidates(contactId, chats[..c], decode);
      c := c + 1;
      if ContactMatch(rows) != Some(contactId) {
        continue;
      }
      if InvolvesSelf(rows) {
        continue;
      }
      seen, messages := CollectChat(rows, decode, prev, seen, messages);
    }
    assert chats[..c] == chats;
  }

  // ---------------------------------------------------------------------
  // The sort by date (data_dashboard.py:286), a stable sort
  // ---------------------------------------------------------------------

  /** `m` placed after every message of the date-sorted `s` whose date is not later. */
  function Insert(s: seq<Msg>, m: Msg): (r: seq<Msg>)
    ensures multiset(r) == multiset(s) + multiset{m}
  {
    if s == [] || s[|s| - 1].date <= m.date then s + [m]
    else
      assert s == s[..|s| - 1] + [s[|s| - 1]];
      Insert(s[..|s| - 1], m) + [s[|s| - 1]]
  }

  function SortByDate(xs: seq<Msg>): (r: seq<Msg>)
    ensures multiset(r) == multiset(xs)
  {
    if xs == [] then []
    else
      assert xs == xs[..|xs| - 1] + [xs[|xs| - 1]];
      Insert(SortByDate(xs[..|xs| - 1]), xs[|xs| - 1])
  }

  predicate SortedByDate(xs: seq<Msg>) {
    forall i, j :: 0 <= i < j < |xs| ==> xs[i].date <= xs[j].date
  }

  /** The messages of one date, in order. */
  function OfDate(xs: seq<Msg>, d: int): seq<Msg> {
    if xs == [] then []
    else OfDate(xs[..|xs| - 1], d) + (if xs[|xs| - 1].date == d then [xs[|xs| - 1]] else [])
  }

  lemma OfDateSnoc(xs: seq<Msg>, m: Msg, d: int)
    ensures OfDate(xs + [m], d) == OfDate(xs, d) + (if m.date == d then [m] else [])
  {
    assert (xs + [m])[..|xs|] == xs;
  }

  lemma {:induction false} InsertSorted(s: seq<Msg>, m: Msg)
    requires SortedByDate(s)
    ensures SortedByDate(Insert(s, m))
    ensures |Insert(s, m)| == |s| + 1
  {
    if !(s == [] || s[|s| - 1].date <= m.date) {
      var front := s[..|s| - 1];
      var last := s[|s| - 1];
      InsertSorted(front, m);
      var ins := Insert(front, m);
      assert multiset(ins) == multiset(front) + multiset{m};
      forall i | 0 <= i < |ins|
        ensures ins[i].date <= last.date
      {
        assert ins[i] in multiset(ins);
        if ins[i] != m {
          assert ins[i] in multiset(front);
          var k :| 0 <= k < |front| && front[k] == ins[i];
          assert s[k] == front[k];
        }
      }
    }
  }

  /** Messages of the same date keep their relative order through an insertion. */
  lemma {:induction false} InsertStable(s: seq<Msg>, m: Msg, d: int)
    ensures OfDate(Insert(s, m), d) == OfDate(s, d) + (if m.date == d then [m] else [])
  {
    if s == [] || s[|s| - 1].date <= m.date {
      OfDateSnoc(s, m, d);
    } else {
      var front := s[..|s| - 1];
      var last := s[|s| - 1];
      var tailM: seq<Msg> := if m.date == d then [m] else [];
      var tailL: seq<Msg> := if last.date == d then [last] else [];
      assert front + [last] == s;
      calc {
        OfDate(Insert(s, m), d);
        == { assert Insert(s, m) == Insert(front, m) + [last]; OfDateSnoc(Insert(front, m), last, d); }
        OfDate(Insert(front, m), d) + tailL;
        == { InsertStable(front, m, d); }
        OfDate(front, d) + tailM + tailL;
        == { assert tailM == [] || tailL == []; }
        OfDate(front, d) + tailL + tailM;
        == { OfDateSnoc(front, last, d); }
        OfDate(s, d) + tailM;
      }
    }
  }

  /**
   * `conversation_messages.sort(key=lambda m: m["date"])`: the result is in
   * date order and holds the same messages.
   */
  lemma {:induction false} SortByDateSorted(xs: seq<Msg>)
    ensures SortedByDate(SortByDate(xs))
    ensures multiset(SortByDate(xs)) == multiset(xs)
  {
    if xs != [] {
      SortByDateSorted(xs[..|xs| - 1]);
      InsertSorted(SortByDate(xs[..|xs| - 1]), xs[|xs| - 1]);
    }
  }

  /** Messages of equal date stay in their original order: the sort is stable. */
  lemma {:induction false} SortByDateStable(xs: seq<Msg>, d: int)
    ensures OfDate(SortByDate(xs), d) == OfDate(xs, d)
  {
    if xs != [] {
      var front := xs[..|xs| - 1];
      var last := xs[|xs| - 1];
      var tail: seq<Msg> := if last.date == d then [last] else [];
      assert front + [last] == xs;
      calc {
        OfDate(SortByDate(xs), d);
        OfDate(Insert(SortByDate(front), last), d);
        { InsertStable(SortByDate(front), last, d); }
        OfDate(SortByDate(front), d) + tail;
        { SortByDateStable(front, d); }
        OfDate(front, d) + tail;
        { OfDateSnoc(front, last, d); }
        OfDate(xs, d);
      }
    }
  }

  // ---------------------------------------------------------------------
  // Merging of nearby messages of theirs (data_dashboard.py:294-320)
  // ---------------------------------------------------------------------

  /** The merge test and step: a message of theirs at most an hour after the previous message of theirs is appended to it. */
  function MergeStep(merged: seq<Msg>, m: Msg): seq<Msg> {
    if && merged != [] && merged[|merged| - 1].role == m.role && m.role == Them
       && m.date - merged[|merged| - 1].date <= MergeWindow
    then merged[..|merged| - 1] + [Msg(m.role, merged[|merged| - 1].text + " " + m.text, m.date)]
    else merged + [m]
  }

  function MergeNearby(xs: seq<Msg>): seq<Msg> {
    if xs == [] then [] else MergeStep(MergeNearby(xs[..|xs| - 1]), xs[|xs| - 1])
  }

  /** The messages of mine, in order. */
  function Mine(xs: seq<Msg>): seq<Msg> {
    if xs == [] then []
    else Mine(xs[..|xs| - 1]) + (if xs[|xs| - 1].role == Me then [xs[|xs| - 1]] else [])
  }

  lemma MineSnoc(xs: seq<Msg>, m: Msg)
    ensures Mine(xs + [m]) == Mine(xs) + (if m.role == Me then [m] else [])
  {
    assert (xs + [m])[..|xs|] == xs;
  }

  /** Two successive messages of theirs that are left apart are more than an hour apart. */
  predicate ThemApart(xs: seq<Msg>) {
    forall i :: 0 <= i < |xs| - 1 && xs[i].role == Them && xs[i + 1].role == Them ==>
      xs[i + 1].date - xs[i].date > MergeWindow
  }

  /** The merge never lengthens the list, and ends on the role and date of the last input message. */
  lemma {:induction false} MergeNearbyShape(xs: seq<Msg>)
    ensures |MergeNearby(xs)| <= |xs|
    ensures xs != [] ==> var m := MergeNearby(xs);
      m != [] && m[|m| - 1].date == xs[|xs| - 1].date && m[|m| - 1].role == xs[|xs| - 1].role
  {
    if xs != [] {
      MergeNearbyShape(xs[..|xs| - 1]);
    }
  }

  /** The merge keeps my messages as they were and in order. */
  lemma {:induction false} MergeNearbyMine(xs: seq<Msg>)
    ensures Mine(MergeNearby(xs)) == Mine(xs)
  {
    if xs != [] {
      var front := xs[..|xs| - 1];
      var x := xs[|xs| - 1];
      MergeNearbyMine(front);
      var mf := MergeNearby(front);
      assert front + [x] == xs;
      MineSnoc(front, x);
      if && mf != [] && mf[|mf| - 1].role == x.role && x.role == Them
         && x.date - mf[|mf| - 1].date <= MergeWindow {
        var joined := Msg(x.role, mf[|mf| - 1].text + " " + x.text, x.date);
        assert MergeNearby(xs) == mf[..|mf| - 1] + [joined];
        assert mf[..|mf| - 1] + [mf[|mf| - 1]] == mf;
        MineSnoc(mf[..|mf| - 1], mf[|mf| - 1]);
        MineSnoc(mf[..|mf| - 1], joined);
      } else {
        assert MergeNearby(xs) == mf + [x];
        MineSnoc(mf, x);
      }
    }
  }

  /** On date-sorted input, no two messages of theirs within an hour of each other are left next to each other. */
  lemma {:induction false} MergeNearbyApart(xs: seq<Msg>)
    requires SortedByDate(xs)
    ensures ThemApart(MergeNearby(xs))
  {
    if xs != [] {
      var front := xs[..|xs| - 1];
      var x := xs[|xs| - 1];
      SortedFront(xs);
      MergeNearbyApart(front);
      MergeNearbyShape(front);
      var mf := MergeNearby(front);
      assert mf != [] ==> mf[|mf| - 1].date <= x.date;
      MergeStepApart(mf, x);
    }
  }

  /** A merge step onto a list whose last date is not after the new message keeps messages of theirs apart. */
  lemma MergeStepApart(mf: seq<Msg>, x: Msg)
    requires ThemApart(mf)
    requires mf != [] ==> mf[|mf| - 1].date <= x.date
    ensures ThemApart(MergeStep(mf, x))
  {
    if && mf != [] && mf[|mf| - 1].role == x.role && x.role == Them
       && x.date - mf[|mf| - 1].date <= MergeWindow {
      MergeApartFront(mf, Msg(x.role, mf[|mf| - 1].text + " " + x.text, x.date));
    } else {
      MergeApartSnoc(mf, x);
    }
  }

  lemma SortedFront(xs: seq<Msg>)
    requires xs != [] && SortedByDate(xs)
    ensures SortedByDate(xs[..|xs| - 1])
    ensures |xs| >= 2 ==> xs[|xs| - 2].date <= xs[|xs| - 1].date
  {
    assert forall i :: 0 <= i < |xs| - 1 ==> xs[..|xs| - 1][i] == xs[i];
  }

  lemma MergeApartFront(mf: seq<Msg>, joined: Msg)
    requires mf != [] && ThemApart(mf)
    requires mf[|mf| - 1].role == joined.role && joined.date >= mf[|mf| - 1].date
    ensures ThemApart(mf[..|mf| - 1] + [joined])
  {
    var m := mf[..|mf| - 1] + [joined];
    forall i | 0 <= i < |m| - 1 && m[i].role == Them && m[i + 1].role == Them
      ensures m[i + 1].date - m[i].date > MergeWindow
    {
      assert m[i] == mf[i];
      if i + 1 < |m| - 1 {
        assert m[i + 1] == mf[i + 1];
      }
    }
  }

  lemma MergeApartSnoc(mf: seq<Msg>, x: Msg)
    requires ThemApart(mf)
    requires mf != [] && mf[|mf| - 1].role == Them && x.role == Them ==> x.date - mf[|mf| - 1].date > MergeWindow
    ensures ThemApart(mf + [x])
  {
    var m := mf + [x];
    forall i | 0 <= i < |m| - 1 && m[i].role == Them && m[i + 1].role == Them
      ensures m[i + 1].date - m[i].date > MergeWindow
    {
      assert m[i] == mf[i];
      if i + 1 < |m| - 1 {
        assert m[i + 1] == mf[i + 1];
      }
    }
  }

  /** The merge loop, rewriting `merged[-1]` in place. */
  method MergeMessages(xs: seq<Msg>) returns (merged: seq<Msg>)
    ensures merged == MergeNearby(xs)
  {
    merged := [];
    var i := 0;
    while i < |xs|
      invariant 0 <= i <= |xs|
      invariant merged == MergeNearby(xs[..i])
    {
      assert xs[..i + 1][..i] == xs[..i];
      var msg := xs[i];
      assert MergeNearby(xs[..i + 1]) == MergeStep(merged, msg);
      var shouldMerge := false;
      if |merged| > 0 && merged[|merged| - 1].role == msg.role && msg.role == Them {
        var timeDiff := msg.date - merged[|merged| - 1].date;
        if timeDiff <= MergeWindow {
          shouldMerge := true;
        }
      }
      if shouldMerge {
        var last := merged[|merged| - 1];
        ghost var before := merged;
        merged := merged[|merged| - 1 := Msg(last.role, last.text + " " + msg.text, msg.date)];
        assert merged == before[..|before| - 1] + [Msg(last.role, last.text + " " + msg.text, msg.date)];
      } else {
        merged := merged + [msg];
      }
      i := i + 1;
    }
    assert xs[..i] == xs;
  }

  // ---------------------------------------------------------------------
  // Automatic conversation starts (data_dashboard.py:332-350)
  // ---------------------------------------------------------------------

  /** Index 0, then each index whose message comes at least 72 hours after the one before it. */
  function AutoStarts(xs: seq<Msg>): (r: seq<nat>)
    ensures |r| >= 1 && r[0] == 0
  {
    if |xs| <= 1 then [0]
    else AutoStarts(xs[..|xs| - 1]) + (if xs[|xs| - 1].date - xs[|xs| - 2].date >= BreakGap then [|xs| - 1] else [])
  }

  predicate StrictlyIncreasing(r: seq<nat>) {
    forall i, j :: 0 <= i < j < |r| ==> r[i] < r[j]
  }

  /** The start list is strictly increasing, and holds an index exactly when it is 0 or a 72-hour break precedes it. */
  lemma {:induction false} AutoStartsProperties(xs: seq<Msg>)
    ensures StrictlyIncreasing(AutoStarts(xs))
    ensures forall i: nat :: i in AutoStarts(xs) <==>
      i == 0 || (1 <= i < |xs| && xs[i].date - xs[i - 1].date >= BreakGap)
    ensures forall k :: 0 <= k < |AutoStarts(xs)| ==> AutoStarts(xs)[k] < |xs| || AutoStarts(xs)[k] == 0
  {
    if |xs| > 1 {
      var front := xs[..|xs| - 1];
      AutoStartsProperties(front);
      assert forall i :: 0 <= i < |front| ==> front[i] == xs[i];
    }
  }

  /** The detection loop. */
  method DetectStarts(merged: seq<Msg>) returns (autoStartIndices: seq<nat>)
    ensures autoStartIndices == AutoStarts(merged)
  {
    autoStartIndices := [0];
    var idx := 1;
    while idx < |merged|
      invariant 1 <= idx <= (if |merged| == 0 then 1 else |merged|)
      invariant idx <= |merged| ==> autoStartIndices == AutoStarts(merged[..idx])
      invariant idx > |merged| ==> autoStartIndices == [0]
    {
      assert merged[..idx + 1][..idx] == merged[..idx];
      var timeDiff := merged[idx].date - merged[idx - 1].date;
      if timeDiff >= BreakGap {
        autoStartIndices := autoStartIndices + [idx];
      }
      idx := idx + 1;
    }
    if |merged| > 1 {
      assert merged[..idx] == merged;
    }
  }

  /** The result of `get_formatted_conversation`. */
  datatype Formatted = Formatted(messages: seq<Msg>, autoStarts: seq<nat>)

  function FormattedOf(contactId: string, chats: seq<seq<Row>>, decode: BodyDecoder): (r: Formatted)
    ensures |r.autoStarts| >= 1 && r.autoStarts[0] == 0
  {
    var sorted := SortByDate(Dedup(AllCandidates(contactId, chats, decode)));
    var merged := MergeNearby(sorted);
    Formatted(merged, AutoStarts(merged))
  }

  /** `get_formatted_conversation` over the chats of the databases it could read, in order. */
  method GetFormattedConversation(contactId: string, chats: seq<seq<Row>>, decode: BodyDecoder) returns (r: Formatted)
    ensures r == FormattedOf(contactId, chats, decode)
  {
    var conversationMessages := CollectMessages(contactId, chats, decode);
    conversationMessages := SortByDate(conversationMessages);
    var merged := MergeMessages(conversationMessages);
    var autoStartIndices := DetectStarts(merged);
    r := Formatted(merged, autoStartIndices);
  }

  /** Every message of the result is clean text from the contact's chats in the expected role, in date order. */
  lemma FormattedMessagesClean(contactId: string, chats: seq<seq<Row>>, decode: BodyDecoder)
    ensures var sorted := SortByDate(Dedup(AllCandidates(contactId, chats, decode)));
      var f := FormattedOf(contactId, chats, decode);
      && SortedByDate(sorted)
      && RolesOk(f.messages) && ThemApart(f.messages) && Mine(f.messages) == Mine(sorted)
  {
    var cands := AllCandidates(contactId, chats, decode);
    var deduped := Dedup(cands);
    var sorted := SortByDate(deduped);
    assert FormattedOf(contactId, chats, decode).messages == MergeNearby(sorted);
    SortByDateSorted(deduped);
    MergeNearbyMine(sorted);
    MergeNearbyApart(sorted);
    AllCandidatesRoles(contactId, chats, decode);
    DedupProperties(cands);
    forall m | m in sorted
      ensures m.role == Me || m.role == Them
    {
      assert m in multiset(sorted);
      assert m in multiset(deduped);
    }
    MergeRoles(sorted);
  }

  /** Every message is mine or theirs. */
  predicate RolesOk(xs: seq<Msg>) {
    forall m :: m in xs ==> m.role == Me || m.role == Them
  }

  lemma {:induction false} AllCandidatesRoles(contactId: string, chats: seq<seq<Row>>, decode: BodyDecoder)
    ensures forall m :: m in AllCandidates(contactId, chats, decode) ==> m.role == Me || m.role == Them
  {
    if chats != [] {
      AllCandidatesRoles(contactId, chats[..|chats| - 1], decode);
      CandidatesRoles(chats[|chats| - 1], decode);
    }
  }

  lemma {:induction false} CandidatesRoles(rows: seq<Row>, decode: BodyDecoder)
    ensures forall m :: m in Candidates(rows, decode) ==> m.role == Me || m.role == Them
  {
    if rows != [] {
      CandidatesRoles(rows[..|rows| - 1], decode);
    }
  }

  lemma {:induction false} MergeRoles(xs: seq<Msg>)
    requires forall m :: m in xs ==> m.role == Me || m.role == Them
    ensures forall m :: m in MergeNearby(xs) ==> m.role == Me || m.role == Them
  {
    if xs != [] {
      MergeRoles(xs[..|xs| - 1]);
    }
  }

  // ---------------------------------------------------------------------
  // write_conversations (data_dashboard.py:593-630)
  // ---------------------------------------------------------------------

  /** `final_messages`: a start marker (role `""`) before each message whose index is a start. */
  function WithStarts(messages: seq<Msg>, starts: set<int>): seq<Msg> {
    if messages == [] then []
    else
      var n := |messages| - 1;
      WithStarts(messages[..n], starts)
      + (if n in starts then [Msg("", ConversationStart, 0)] else []) + [messages[n]]
  }

  /** The messages with a role, in order: the markers taken out again. */
  function Unmarked(xs: seq<Msg>): seq<Msg> {
    if xs == [] then []
    else Unmarked(xs[..|xs| - 1]) + (if xs[|xs| - 1].role != "" then [xs[|xs| - 1]] else [])
  }

  /** How many indices below `n` are starts. */
  function StartsBelow(n: nat, starts: set<int>): nat {
    if n == 0 then 0 else StartsBelow(n - 1, starts) + (if n - 1 in starts then 1 else 0)
  }

  /** Taking the markers out gives back the messages. */
  lemma {:induction false} WithStartsUnmarked(messages: seq<Msg>, starts: set<int>)
    requires forall i :: 0 <= i < |messages| ==> messages[i].role != ""
    ensures Unmarked(WithStarts(messages, starts)) == messages
  {
    if messages != [] {
      var n := |messages| - 1;
      var front := messages[..n];
      var last := messages[n];
      WithStartsUnmarked(front, starts);
      var wf := WithStarts(front, starts);
      var marker := Msg("", ConversationStart, 0);
      assert front + [last] == messages;
      if n in starts {
        calc {
          Unmarked(WithStarts(messages, starts));
          == { assert WithStarts(messages, starts) == (wf + [marker]) + [last]; }
          Unmarked((wf + [marker]) + [last]);
          == { UnmarkedSnoc(wf + [marker], last); }
          Unmarked(wf + [marker]) + [last];
          == { UnmarkedSnoc(wf, marker); }
          front + [last];
        }
      } else {
        calc {
          Unmarked(WithStarts(messages, starts));
          == { assert WithStarts(messages, starts) == wf + [last]; }
          Unmarked(wf + [last]);
          == { UnmarkedSnoc(wf, last); }
          front + [last];
        }
      }
    }
  }

  /** There is one marker per start index inside the list. */
  lemma {:induction false} WithStartsLength(messages: seq<Msg>, starts: set<int>)
    ensures |WithStarts(messages, starts)| == |messages| + StartsBelow(|messages|, starts)
  {
    if messages != [] {
      WithStartsLength(messages[..|messages| - 1], starts);
    }
  }

  lemma UnmarkedSnoc(xs: seq<Msg>, m: Msg)
    ensures Unmarked(xs + [m]) == Unmarked(xs) + (if m.role != "" then [m] else [])
  {
    assert (xs + [m])[..|xs|] == xs;
  }

  /** The text written for `final_messages`: role and text for a message, the text alone for a marker. */
  function Serialize(xs: seq<Msg>): string {
    if xs == [] then ""
    else Serialize(xs[..|xs| - 1]) + (if xs[|xs| - 1].role != "" then xs[|xs| - 1].role + xs[|xs| - 1].text else xs[|xs| - 1].text)
  }

  /** What is written for one contact: nothing for an empty conversation, otherwise its messages with markers, then the end marker. */
  function ConversationText(f: Formatted, manual: set<int>): string {
    if f.messages == [] then ""
    else Serialize(WithStarts(f.messages, manual + Elems0(f.autoStarts))) + EndOfText
  }

  function Elems0(xs: seq<nat>): (r: set<int>)
    ensures forall i: int :: i in r <==> i in xs
  {
    if xs == [] then {} else Elems0(xs[..|xs| - 1]) + {xs[|xs| - 1] as int}
  }

  lemma {:induction false} SerializeStartsWithFirst(xs: seq<Msg>)
    requires xs != [] && xs[0].role == ""
    ensures StartsWith(Serialize(xs), xs[0].text)
  {
    if |xs| > 1 {
      SerializeStartsWithFirst(xs[..|xs| - 1]);
    }
  }

  lemma {:induction false} WithStartsFirst(messages: seq<Msg>, starts: set<int>)
    requires messages != [] && 0 in starts
    ensures WithStarts(messages, starts) != [] && WithStarts(messages, starts)[0] == Msg("", ConversationStart, 0)
  {
    if |messages| > 1 {
      WithStartsFirst(messages[..|messages| - 1], starts);
    }
  }

  /** A written conversation opens with a start marker (index 0 is always a start) and closes with the end marker. */
  lemma ConversationFraming(f: Formatted, manual: set<int>)
    requires f.messages != [] && |f.autoStarts| >= 1 && f.autoStarts[0] == 0
    ensures StartsWith(ConversationText(f, manual), ConversationStart)
    ensures EndsWith(ConversationText(f, manual), EndOfText)
  {
    var starts := manual + Elems0(f.autoStarts);
    assert 0 in starts;
    WithStartsFirst(f.messages, starts);
    SerializeStartsWithFirst(WithStarts(f.messages, starts));
    var s := Serialize(WithStarts(f.messages, starts));
    assert ConversationText(f, manual) == s + EndOfText;
    assert (s + EndOfText)[..|ConversationStart|] == s[..|ConversationStart|];
    assert (s + EndOfText)[|s + EndOfText| - |EndOfText|..] == EndOfText;
  }

  /** The text of a file: the contacts' conversations one after another. */
  function FileText(contacts: seq<string>, starts: map<string, seq<int>>, chats: seq<seq<Row>>, decode: BodyDecoder): string {
    if contacts == [] then ""
    else
      var c := contacts[|contacts| - 1];
      FileText(contacts[..|contacts| - 1], starts, chats, decode)
      + ConversationText(FormattedOf(c, chats, decode), ManualStarts(starts, c))
  }

  /** `set(conversation_starts.get(contact_id, []))`. */
  function ManualStarts(starts: map<string, seq<int>>, c: string): (r: set<int>)
    ensures c !in starts ==> r == {}
    ensures c in starts ==> forall i :: i in r <==> i in starts[c]
  {
    if c in starts then set i | i in starts[c] else {}
  }

  /** The marker-inserting loop and the write loop for one conversation. */
  method WriteConversation(messages: seq<Msg>, allStartIndices: set<int>) returns (out: string)
    ensures out == Serialize(WithStarts(messages, allStartIndices))
  {
    var finalMessages: seq<Msg> := [];
    var idx := 0;
    while idx < |messages|
      invariant 0 <= idx <= |messages|
      invariant finalMessages == WithStarts(messages[..idx], allStartIndices)
    {
      assert messages[..idx + 1][..idx] == messages[..idx];
      if idx in allStartIndices {
        finalMessages := finalMessages + [Msg("", ConversationStart, 0)];
      }
      finalMessages := finalMessages + [messages[idx]];
      idx := idx + 1;
    }
    assert messages[..idx] == messages;
    out := "";
    var j := 0;
    while j < |finalMessages|
      invariant 0 <= j <= |finalMessages|
      invariant out == Serialize(finalMessages[..j])
    {
      assert finalMessages[..j + 1][..j] == finalMessages[..j];
      var msg := finalMessages[j];
      if msg.role != "" {
        out := out + (msg.role + msg.text);
      } else {
        out := out + msg.text;
      }
      j := j + 1;
    }
    assert finalMessages[..j] == finalMessages;
  }

  /** `write_conversations`: the text of the file it writes for the given contacts. */
  method WriteConversations(contacts: seq<string>, conversationStarts: map<string, seq<int>>,
                            chats: seq<seq<Row>>, decode: BodyDecoder) returns (out: string)
    ensures out == FileText(contacts, conversationStarts, chats, decode)
  {
    out := "";
    var c := 0;
    while c < |contacts|
      invariant 0 <= c <= |contacts|
      invariant out == FileText(contacts[..c], conversationStarts, chats, decode)
    {
      assert contacts[..c + 1][..c] == contacts[..c];
      var contactId := contacts[c];
      c := c + 1;
      var result := GetFormattedConversation(contactId, chats, decode);
      if result.messages == [] {
        continue;
      }
      var manualStartIndices := ManualStarts(conversationStarts, contactId);
      var autoStartIndices := Elems0(result.autoStarts);
      var allStartIndices := manualStartIndices + autoStartIndices;
      var body := WriteConversation(result.messages, allStartIndices);
      out := out + (body + EndOfText);
    }
    assert contacts[..c] == contacts;
  }
}

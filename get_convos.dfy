/**
 * get_convos.py after its queries: which messages of a one-on-one chat are
 * kept as `(role, text)` lines, which chats are kept as conversations, and
 * how `write_dataset` lays them out, numbered, with the other party's runs
 * of messages joined into one line.
 */
module GetConvos {
  import opened Wrappers
  import opened Text
  import opened ChatText

  /** `SELF_ADDRESS`. */
  const SelfAddress := "+17163594066"
  const MeRole := "Me:"
  const ThemRole := "Them:"

  /** A row of the message query: sender handle and text (`""` for NULL) and `is_from_me`. */
  datatype Row = Row(sender: string, text: string, isFromMe: bool)

  /** A conversation line `(role, text)`. */
  datatype Line = Line(role: string, text: string)

  // ---------------------------------------------------------------------
  // fetch_conversations (get_convos.py:48-78)
  // ---------------------------------------------------------------------

  /**
   * The message filter: blank bodies, bodies with a URL and the other
   * party's quoted reactions are dropped; U+FFFC is removed and the body
   * stripped, and a body blank after that is dropped; the rest become a
   * line with the sender's role.
   */
  function FilterRow(r: Row): (o: Option<Line>)
    ensures o.Some? <==>
      && !IsBlank(r.text) && !HasUrl(r.text)
      && !(!r.isFromMe && IsQuotedReaction(Strip(r.text)))
      && !IsBlank(RemoveChar(r.text, ObjectReplacement))
    ensures o.Some? ==>
      && o.value.text == CleanBody(r.text) && IsTrimmed(o.value.text) && ObjectReplacement !in o.value.text
      && o.value.role == (if r.isFromMe then MeRole else ThemRole)
  {
    if IsBlank(r.text) then None
    else if HasUrl(r.text) then None
    else if !r.isFromMe && IsQuotedReaction(Strip(r.text)) then None
    else
      var text := CleanBody(r.text);
      if text == [] then None
      else Some(Line(if r.isFromMe then MeRole else ThemRole, text))
  }

  /** The lines the filter keeps, in order. */
  function FilterChat(rows: seq<Row>): seq<Line> {
    if rows == [] then []
    else
      var front := FilterChat(rows[..|rows| - 1]);
      match FilterRow(rows[|rows| - 1])
      case Some(l) => front + [l]
      case None => front
  }

  /** Every kept line comes from a row the filter keeps, and passes the filter's tests. */
  lemma {:induction false} FilterChatLines(rows: seq<Row>)
    ensures forall i :: 0 <= i < |FilterChat(rows)| ==>
      && IsTrimmed(FilterChat(rows)[i].text) && ObjectReplacement !in FilterChat(rows)[i].text
      && (FilterChat(rows)[i].role == MeRole || FilterChat(rows)[i].role == ThemRole)
      && exists j :: 0 <= j < |rows| && FilterRow(rows[j]) == Some(FilterChat(rows)[i])
  {
    if rows != [] {
      var front := rows[..|rows| - 1];
      FilterChatLines(front);
      forall i | 0 <= i < |FilterChat(front)|
        ensures exists j :: 0 <= j < |rows| && FilterRow(rows[j]) == Some(FilterChat(front)[i])
      {
        var j :| 0 <= j < |front| && FilterRow(front[j]) == Some(FilterChat(front)[i]);
        assert rows[j] == front[j];
      }
    }
  }

  /** `any(m[2] == SELF_ADDRESS for m in messages if m[2])`. */
  predicate InvolvesSelf(rows: seq<Row>) {
    exists i :: 0 <= i < |rows| && rows[i].sender != "" && rows[i].sender == SelfAddress
  }

  predicate HasMe(lines: seq<Line>) {
    exists i :: 0 <= i < |lines| && lines[i].role == MeRole
  }

  /** A chat is kept when it does not involve the own address and its kept lines include one of mine. */
  predicate KeepChat(rows: seq<Row>) {
    !InvolvesSelf(rows) && FilterChat(rows) != [] && HasMe(FilterChat(rows))
  }

  /** The conversations of the one-on-one chats, in order. */
  function Fetched(chats: seq<seq<Row>>): seq<seq<Line>> {
    if chats == [] then []
    else Fetched(chats[..|chats| - 1]) + (if KeepChat(chats[|chats| - 1]) then [FilterChat(chats[|chats| - 1])] else [])
  }

  /** Every fetched conversation is non-empty, has a line of mine, and comes from a chat without the own address. */
  lemma {:induction false} FetchedKept(chats: seq<seq<Row>>)
    ensures forall i :: 0 <= i < |Fetched(chats)| ==>
      Fetched(chats)[i] != [] && HasMe(Fetched(chats)[i])
      && exists j :: 0 <= j < |chats| && !InvolvesSelf(chats[j]) && Fetched(chats)[i] == FilterChat(chats[j])
  {
    if chats != [] {
      var front := chats[..|chats| - 1];
      FetchedKept(front);
      forall i | 0 <= i < |Fetched(front)|
        ensures exists j :: 0 <= j < |chats| && !InvolvesSelf(chats[j]) && Fetched(front)[i] == FilterChat(chats[j])
      {
        var j :| 0 <= j < |front| && !InvolvesSelf(front[j]) && Fetched(front)[i] == FilterChat(front[j]);
        assert chats[j] == front[j];
      }
    }
  }

  /** The filter loop of one chat. */
  method FilterMessages(rows: seq<Row>) returns (filtered: seq<Line>)
    ensures filtered == FilterChat(rows)
  {
    filtered := [];
    var i := 0;
    while i < |rows|
      invariant 0 <= i <= |rows|
      invariant filtered == FilterChat(rows[..i])
    {
      assert rows[..i + 1][..i] == rows[..i];
      var r := rows[i];
      if IsBlank(r.text) {
      } else if HasUrl(r.text) {
      } else if !r.isFromMe && IsQuotedReaction(Strip(r.text)) {
      } else {
        var text := CleanBody(r.text);
        if text != [] {
          var role := if r.isFromMe then MeRole else ThemRole;
          filtered := filtered + [Line(role, text)];
        }
      }
      i := i + 1;
    }
    assert rows[..i] == rows;
  }

  /** `fetch_conversations` over the rows of each one-on-one chat. */
  method FetchConversations(chats: seq<seq<Row>>) returns (allConvos: seq<seq<Line>>)
    ensures allConvos == Fetched(chats)
  {
    allConvos := [];
    var c := 0;
    while c < |chats|
      invariant 0 <= c <= |chats|
      invariant allConvos == Fetched(chats[..c])
    {
      assert chats[..c + 1][..c] == chats[..c];
      var messages := chats[c];
      c := c + 1;
      if InvolvesSelf(messages) {
        continue;
      }
      var filtered := FilterMessages(messages);
      if filtered == [] {
        continue;
      }
      if !HasMe(filtered) {
        continue;
      }
      allConvos := allConvos + [filtered];
    }
    assert chats[..c] == chats;
  }

  // ---------------------------------------------------------------------
  // write_dataset (get_convos.py:84-108)
  // ---------------------------------------------------------------------

  /** `[(role, text) for role, text in convo if text and re.search(r"\S", text)]`. */
  function NonBlank(lines: seq<Line>): (r: seq<Line>)
    ensures |r| <= |lines|
    ensures forall i :: 0 <= i < |r| ==> !IsBlank(r[i].text)
  {
    if lines == [] then []
    else NonBlank(lines[..|lines| - 1]) + (if IsBlank(lines[|lines| - 1].text) then [] else [lines[|lines| - 1]])
  }

  /** The second whitespace filter of write_dataset changes nothing. */
  lemma {:induction false} NonBlankIdempotent(lines: seq<Line>)
    ensures NonBlank(NonBlank(lines)) == NonBlank(lines)
  {
    if lines != [] {
      var front := lines[..|lines| - 1];
      var last := lines[|lines| - 1];
      NonBlankIdempotent(front);
      if !IsBlank(last.text) {
        var nb := NonBlank(lines);
        assert nb == NonBlank(front) + [last];
        assert nb[..|nb| - 1] == NonBlank(front);
        assert nb[|nb| - 1] == last;
        assert NonBlank(nb) == NonBlank(NonBlank(front)) + [last];
      } else {
        assert NonBlank(lines) == NonBlank(front) + [];
        assert NonBlank(front) + [] == NonBlank(front);
      }
    }
  }

  /** The merge step: a line of theirs after a line of theirs is appended to it with a space. */
  function MergeStep(merged: seq<Line>, l: Line): seq<Line> {
    if merged != [] && merged[|merged| - 1].role == l.role && l.role == ThemRole then
      merged[..|merged| - 1] + [Line(l.role, merged[|merged| - 1].text + " " + l.text)]
    else merged + [l]
  }

  /** Successive lines of theirs joined into one. */
  function MergeThem(lines: seq<Line>): seq<Line> {
    if lines == [] then [] else MergeStep(MergeThem(lines[..|lines| - 1]), lines[|lines| - 1])
  }

  /** The lines of mine, in order. */
  function Mine(lines: seq<Line>): seq<string> {
    if lines == [] then []
    else Mine(lines[..|lines| - 1]) + (if lines[|lines| - 1].role == MeRole then [lines[|lines| - 1].text] else [])
  }

  predicate NoAdjacentThem(lines: seq<Line>) {
    forall i :: 0 <= i < |lines| - 1 ==> !(lines[i].role == ThemRole && lines[i + 1].role == ThemRole)
  }

  /** The merge never lengthens the conversation and ends on the role of its last line. */
  lemma {:induction false} MergeThemShape(lines: seq<Line>)
    ensures |MergeThem(lines)| <= |lines|
    ensures lines != [] ==> MergeThem(lines) != [] && MergeThem(lines)[|MergeThem(lines)| - 1].role == lines[|lines| - 1].role
  {
    if lines != [] {
      MergeThemShape(lines[..|lines| - 1]);
    }
  }

  /** The merge keeps my lines as they were and in order. */
  lemma {:induction false} MergeThemMine(lines: seq<Line>)
    ensures Mine(MergeThem(lines)) == Mine(lines)
  {
    if lines != [] {
      var front := lines[..|lines| - 1];
      var l := lines[|lines| - 1];
      MergeThemMine(front);
      var mf := MergeThem(front);
      assert front + [l] == lines;
      MineSnoc(front, l);
      if mf != [] && mf[|mf| - 1].role == l.role && l.role == ThemRole {
        var joined := Line(l.role, mf[|mf| - 1].text + " " + l.text);
        assert MergeThem(lines) == mf[..|mf| - 1] + [joined];
        assert mf[..|mf| - 1] + [mf[|mf| - 1]] == mf;
        MineSnoc(mf[..|mf| - 1], mf[|mf| - 1]);
        MineSnoc(mf[..|mf| - 1], joined);
      } else {
        assert MergeThem(lines) == mf + [l];
        MineSnoc(mf, l);
      }
    }
  }

  /** The merge leaves no two lines of theirs next to each other. */
  lemma {:induction false} MergeThemNoAdjacent(lines: seq<Line>)
    ensures NoAdjacentThem(MergeThem(lines))
  {
    if lines != [] {
      var front := lines[..|lines| - 1];
      var l := lines[|lines| - 1];
      MergeThemNoAdjacent(front);
      var mf := MergeThem(front);
      if mf != [] && mf[|mf| - 1].role == l.role && l.role == ThemRole {
        NoAdjacentReplaceLast(mf, Line(l.role, mf[|mf| - 1].text + " " + l.text));
      } else {
        NoAdjacentSnoc(mf, l);
      }
    }
  }

  lemma NoAdjacentReplaceLast(mf: seq<Line>, l: Line)
    requires mf != [] && NoAdjacentThem(mf) && mf[|mf| - 1].role == l.role
    ensures NoAdjacentThem(mf[..|mf| - 1] + [l])
  {
    var m := mf[..|mf| - 1] + [l];
    forall i | 0 <= i < |m| - 1
      ensures !(m[i].role == ThemRole && m[i + 1].role == ThemRole)
    {
      assert m[i] == mf[i];
      if i + 1 < |m| - 1 {
        assert m[i + 1] == mf[i + 1];
      }
    }
  }

  lemma NoAdjacentSnoc(mf: seq<Line>, l: Line)
    requires NoAdjacentThem(mf)
    requires mf != [] && mf[|mf| - 1].role == ThemRole ==> l.role != ThemRole
    ensures NoAdjacentThem(mf + [l])
  {
    var m := mf + [l];
    forall i | 0 <= i < |m| - 1
      ensures !(m[i].role == ThemRole && m[i + 1].role == ThemRole)
    {
      assert m[i] == mf[i];
      if i + 1 < |m| - 1 {
        assert m[i + 1] == mf[i + 1];
      }
    }
  }

  lemma MineSnoc(lines: seq<Line>, l: Line)
    ensures Mine(lines + [l]) == Mine(lines) + (if l.role == MeRole then [l.text] else [])
  {
    assert (lines + [l])[..|lines|] == lines;
  }

  /** `f"{role} {text}<|endoftext|>\n"` for each line. */
  function LinesText(lines: seq<Line>): string {
    if lines == [] then ""
    else LinesText(lines[..|lines| - 1]) + lines[|lines| - 1].role + " " + lines[|lines| - 1].text + EndOfText + "\n"
  }

  /** `f"====== Conversation {convo_index} ======\n"`. */
  function Header(n: nat): string {
    "====== Conversation " + NatToString(n) + " ======\n"
  }

  /** The block of one conversation after its header, ending in a blank line. */
  function Block(convo: seq<Line>): string {
    LinesText(MergeThem(NonBlank(NonBlank(convo)))) + "\n"
  }

  /** The file's text and the counter after the given conversations. */
  datatype Written = Written(text: string, count: nat)

  function Write(convos: seq<seq<Line>>): Written {
    if convos == [] then Written("", 0)
    else
      var w := Write(convos[..|convos| - 1]);
      var c := convos[|convos| - 1];
      if NonBlank(c) == [] then w else Written(w.text + Header(w.count + 1) + Block(c), w.count + 1)
  }

  /** The conversations with a non-blank line, in order. */
  function Kept(convos: seq<seq<Line>>): seq<seq<Line>> {
    if convos == [] then []
    else Kept(convos[..|convos| - 1]) + (if NonBlank(convos[|convos| - 1]) == [] then [] else [convos[|convos| - 1]])
  }

  /** The `n`-th kept conversation under the `n`-th header, for each `n` from 1. */
  function Numbered(kept: seq<seq<Line>>): string {
    if kept == [] then "" else Numbered(kept[..|kept| - 1]) + Header(|kept|) + Block(kept[|kept| - 1])
  }

  /**
   * The counter counts only conversations with a non-blank line, so the
   * headers are 1, 2, 3, ... over exactly those conversations.
   */
  lemma {:induction false} WriteNumbersKept(convos: seq<seq<Line>>)
    ensures Write(convos).count == |Kept(convos)|
    ensures Write(convos).text == Numbered(Kept(convos))
  {
    if convos != [] {
      var front := convos[..|convos| - 1];
      var last := convos[|convos| - 1];
      WriteNumbersKept(front);
      var k := Kept(convos);
      if NonBlank(last) != [] {
        assert k == Kept(front) + [last];
        assert k[..|k| - 1] == Kept(front);
        assert Numbered(k) == Numbered(Kept(front)) + Header(|k|) + Block(last);
      } else {
        assert k == Kept(front);
      }
    }
  }

  /** The merge loop of write_dataset. */
  method MergeLines(lines: seq<Line>) returns (merged: seq<Line>)
    ensures merged == MergeThem(lines)
  {
    merged := [];
    var i := 0;
    while i < |lines|
      invariant 0 <= i <= |lines|
      invariant merged == MergeThem(lines[..i])
    {
      assert lines[..i + 1][..i] == lines[..i];
      var l := lines[i];
      if |merged| > 0 && merged[|merged| - 1].role == l.role && l.role == ThemRole {
        merged := merged[..|merged| - 1] + [Line(l.role, merged[|merged| - 1].text + " " + l.text)];
      } else {
        merged := merged + [l];
      }
      i := i + 1;
    }
    assert lines[..i] == lines;
  }

  /** The line-writing loop of write_dataset. */
  method WriteLines(merged: seq<Line>) returns (out: string)
    ensures out == LinesText(merged)
  {
    out := "";
    var j := 0;
    while j < |merged|
      invariant 0 <= j <= |merged|
      invariant out == LinesText(merged[..j])
    {
      assert merged[..j + 1][..j] == merged[..j];
      out := out + merged[j].role + " " + merged[j].text + EndOfText + "\n";
      j := j + 1;
    }
    assert merged[..j] == merged;
  }

  /** One step of the conversation loop. */
  lemma WriteStep(convos: seq<seq<Line>>, c: nat)
    requires c < |convos|
    ensures var w := Write(convos[..c]);
      Write(convos[..c + 1]) ==
        if NonBlank(convos[c]) == [] then w else Written(w.text + Header(w.count + 1) + Block(convos[c]), w.count + 1)
  {
    assert convos[..c + 1][..c] == convos[..c];
  }

  /** The body of one conversation: the whitespace filter, the merge, the lines and the blank line. */
  method ConversationBlock(cleaned: seq<Line>, ghost convo: seq<Line>) returns (block: string)
    requires cleaned == NonBlank(convo)
    ensures block == Block(convo)
  {
    var nonWhitespace := NonBlank(cleaned);
    var merged := MergeLines(nonWhitespace);
    var body := WriteLines(merged);
    block := body + "\n";
  }

  /** `write_dataset`: the text of the file it writes. */
  method WriteDataset(conversations: seq<seq<Line>>) returns (out: string)
    ensures out == Write(conversations).text
  {
    out := "";
    var convoIndex: nat := 0;
    var c := 0;
    while c < |conversations|
      invariant 0 <= c <= |conversations|
      invariant out == Write(conversations[..c]).text && convoIndex == Write(conversations[..c]).count
    {
      WriteStep(conversations, c);
      ghost var convo := conversations[c];
      var cleaned := NonBlank(conversations[c]);
      c := c + 1;
      if cleaned == [] {
        continue;
      }
      convoIndex := convoIndex + 1;
      out := out + Header(convoIndex);
      var block := ConversationBlock(cleaned, convo);
      out := out + block;
    }
    assert conversations[..c] == conversations;
  }
}

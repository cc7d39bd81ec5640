/**
 * The per-contact summary of the visualiser (visualizer.py, and the same
 * code again in data_dashboard.py): the rows of every readable database
 * gathered in order, the rows of one contact merged into one summary with
 * summed counts and the earliest and latest message dates, and the result
 * sorted by message count, largest first.
 */
module Contacts {

  /** A row of the per-contact query. A NULL date is `""`. */
  datatype Summary = Summary(
    contact: string,
    messageCount: int,
    firstMessage: string,
    lastMessage: string,
    sentCount: int,
    receivedCount: int)

  /** A row of the timeline query. */
  datatype TimelineMessage = TimelineMessage(contact: string, date: string, fromMe: bool)

  /** One database: not found, failed while being read, or the rows of its two queries. */
  datatype DbRead = Missing | Failed | Read(conversations: seq<Summary>, messages: seq<TimelineMessage>)

  // ---------------------------------------------------------------------
  // Gathering over DB_PATHS (visualizer.py:19-112)
  // ---------------------------------------------------------------------

  function AllConversations(dbs: seq<DbRead>): seq<Summary> {
    if dbs == [] then []
    else
      AllConversations(dbs[..|dbs| - 1])
      + (if dbs[|dbs| - 1].Read? then dbs[|dbs| - 1].conversations else [])
  }

  function AllMessages(dbs: seq<DbRead>): seq<TimelineMessage> {
    if dbs == [] then []
    else AllMessages(dbs[..|dbs| - 1]) + (if dbs[|dbs| - 1].Read? then dbs[|dbs| - 1].messages else [])
  }

  /** The gathered rows are those of the readable databases only: nothing from a missing or failed one. */
  lemma {:induction false} GatherSkipsUnread(dbs: seq<DbRead>, d: DbRead)
    requires !d.Read?
    ensures AllConversations(dbs + [d]) == AllConversations(dbs)
    ensures AllMessages(dbs + [d]) == AllMessages(dbs)
  {
    assert (dbs + [d])[..|dbs|] == dbs;
    assert AllConversations(dbs) + [] == AllConversations(dbs);
    assert AllMessages(dbs) + [] == AllMessages(dbs);
  }

  /** Gathering two lists of databases is gathering each in turn: the order is `DB_PATHS` order. */
  lemma {:induction false} GatherAppendConversations(a: seq<DbRead>, b: seq<DbRead>)
    ensures AllConversations(a + b) == AllConversations(a) + AllConversations(b)
  {
    if b == [] {
      assert a + b == a;
    } else {
      var front, last := b[..|b| - 1], b[|b| - 1];
      var rows := if last.Read? then last.conversations else [];
      GatherAppendConversations(a, front);
      assert (a + b)[..|a + b| - 1] == a + front;
      assert (a + b)[|a + b| - 1] == last;
      calc {
        AllConversations(a + b);
        AllConversations(a + front) + rows;
        AllConversations(a) + AllConversations(front) + rows;
        AllConversations(a) + (AllConversations(front) + rows);
        AllConversations(a) + AllConversations(b);
      }
    }
  }

  lemma {:induction false} GatherAppendMessages(a: seq<DbRead>, b: seq<DbRead>)
    ensures AllMessages(a + b) == AllMessages(a) + AllMessages(b)
  {
    if b == [] {
      assert a + b == a;
    } else {
      var front, last := b[..|b| - 1], b[|b| - 1];
      var rows := if last.Read? then last.messages else [];
      GatherAppendMessages(a, front);
      assert (a + b)[..|a + b| - 1] == a + front;
      assert (a + b)[|a + b| - 1] == last;
      calc {
        AllMessages(a + b);
        AllMessages(a + front) + rows;
        AllMessages(a) + AllMessages(front) + rows;
        AllMessages(a) + (AllMessages(front) + rows);
        AllMessages(a) + AllMessages(b);
      }
    }
  }

  /** The database loop of `get_conversation_data`. */
  method Gather(dbs: seq<DbRead>) returns (allConversations: seq<Summary>, allMessages: seq<TimelineMessage>)
    ensures allConversations == AllConversations(dbs) && allMessages == AllMessages(dbs)
  {
    allConversations, allMessages := [], [];
    var i := 0;
    while i < |dbs|
      invariant 0 <= i <= |dbs|
      invariant allConversations == AllConversations(dbs[..i]) && allMessages == AllMessages(dbs[..i])
    {
      assert dbs[..i + 1][..i] == dbs[..i];
      match dbs[i] {
        case Missing =>
        case Failed =>
        case Read(conversations, messages) =>
          allConversations := allConversations + conversations;
          allMessages := allMessages + messages;
      }
      i := i + 1;
    }
    assert dbs[..i] == dbs;
  }

  // ---------------------------------------------------------------------
  // Python string order
  // ---------------------------------------------------------------------

  /** `a < b` on Python strings: code point by code point, a proper prefix first. */
  predicate Less(a: string, b: string)
    decreases |a|
  {
    || (a == [] && b != [])
    || (a != [] && b != [] && (a[0] < b[0] || (a[0] == b[0] && Less(a[1..], b[1..]))))
  }

  lemma {:induction false} LessTransitive(a: string, b: string, c: string)
    requires Less(a, b) && Less(b, c)
    ensures Less(a, c)
    decreases |a|
  {
    if a != [] && a[0] == b[0] && b[0] == c[0] {
      LessTransitive(a[1..], b[1..], c[1..]);
    }
  }

  lemma {:induction false} LessIrreflexive(a: string)
    ensures !Less(a, a)
  {
    if a != [] {
      LessIrreflexive(a[1..]);
    }
  }

  // ---------------------------------------------------------------------
  // The merge of one contact's rows (visualizer.py:114-135, data_dashboard.py:509-535)
  // ---------------------------------------------------------------------

  /** The update of an existing entry by a further row of the same contact. */
  function Combine(existing: Summary, conv: Summary): (r: Summary)
    ensures r.contact == existing.contact
    ensures r.messageCount == existing.messageCount + conv.messageCount
    ensures r.sentCount == existing.sentCount + conv.sentCount
    ensures r.receivedCount == existing.receivedCount + conv.receivedCount
    ensures r.firstMessage == existing.firstMessage || r.firstMessage == conv.firstMessage
    ensures r.lastMessage == existing.lastMessage || r.lastMessage == conv.lastMessage
  {
    Summary(
      existing.contact,
      existing.messageCount + conv.messageCount,
      if conv.firstMessage != "" && (existing.firstMessage == "" || Less(conv.firstMessage, existing.firstMessage))
      then conv.firstMessage else existing.firstMessage,
      if conv.lastMessage != "" && (existing.lastMessage == "" || Less(existing.lastMessage, conv.lastMessage))
      then conv.lastMessage else existing.lastMessage,
      existing.sentCount + conv.sentCount,
      existing.receivedCount + conv.receivedCount)
  }

  /** `contact_map` after the given rows. */
  function MergedMap(all: seq<Summary>): map<string, Summary> {
    if all == [] then map[]
    else
      var m := MergedMap(all[..|all| - 1]);
      var conv := all[|all| - 1];
      if conv.contact in m then m[conv.contact := Combine(m[conv.contact], conv)] else m[conv.contact := conv]
  }

  /** The contacts in the order they were first inserted into `contact_map`. */
  function Order(all: seq<Summary>): seq<string> {
    if all == [] then []
    else
      var o := Order(all[..|all| - 1]);
      if all[|all| - 1].contact in o then o else o + [all[|all| - 1].contact]
  }

  predicate NoDup(xs: seq<string>) {
    forall i, j :: 0 <= i < j < |xs| ==> xs[i] != xs[j]
  }

  /** The map holds one entry per contact met, under its own name, in a duplicate-free insertion order. */
  lemma {:induction false} MergedMapKeys(all: seq<Summary>)
    ensures forall c :: c in MergedMap(all) <==> c in Order(all)
    ensures forall c :: c in Order(all) <==> exists i :: 0 <= i < |all| && all[i].contact == c
    ensures forall c :: c in MergedMap(all) ==> MergedMap(all)[c].contact == c
    ensures NoDup(Order(all))
  {
    if all != [] {
      var front := all[..|all| - 1];
      MergedMapKeys(front);
      assert forall i :: 0 <= i < |front| ==> front[i] == all[i];
      forall c | exists i :: 0 <= i < |all| && all[i].contact == c
        ensures c in Order(all)
      {
        var i :| 0 <= i < |all| && all[i].contact == c;
        if i < |front| {
          assert front[i].contact == c;
        }
      }
    }
  }

  /** The three counts of one contact summed over the rows. */
  datatype Counts = Counts(messages: int, sent: int, received: int)

  function Totals(all: seq<Summary>, c: string): Counts {
    if all == [] then Counts(0, 0, 0)
    else
      var t := Totals(all[..|all| - 1], c);
      var conv := all[|all| - 1];
      if conv.contact == c then Counts(t.messages + conv.messageCount, t.sent + conv.sentCount, t.received + conv.receivedCount)
      else t
  }

  /** A merged entry's counts are the sums over all rows of its contact. */
  lemma {:induction false} MergedCounts(all: seq<Summary>, c: string)
    requires c in MergedMap(all)
    ensures var e := MergedMap(all)[c];
      Counts(e.messageCount, e.sentCount, e.receivedCount) == Totals(all, c)
  {
    var front := all[..|all| - 1];
    var conv := all[|all| - 1];
    if c in MergedMap(front) {
      MergedCounts(front, c);
    } else if conv.contact == c {
      TotalsAbsent(front, c);
    }
  }

  lemma {:induction false} TotalsAbsent(all: seq<Summary>, c: string)
    requires c !in MergedMap(all)
    ensures Totals(all, c) == Counts(0, 0, 0)
  {
    if all != [] {
      TotalsAbsent(all[..|all| - 1], c);
    }
  }

  /**
   * A merged entry's `firstMessage` is the least non-empty first date among
   * the rows of its contact, and `""` exactly when they are all empty.
   */
  lemma {:induction false} MergedFirst(all: seq<Summary>, c: string)
    requires c in MergedMap(all)
    ensures var f := MergedMap(all)[c].firstMessage;
      && (f == "" <==> forall i :: 0 <= i < |all| && all[i].contact == c ==> all[i].firstMessage == "")
      && (f != "" ==> exists i :: 0 <= i < |all| && all[i].contact == c && all[i].firstMessage == f)
      && (forall i :: 0 <= i < |all| && all[i].contact == c && all[i].firstMessage != "" ==> !Less(all[i].firstMessage, f))
  {
    var front := all[..|all| - 1];
    var conv := all[|all| - 1];
    var f := MergedMap(all)[c].firstMessage;
    LessIrreflexive(f);
    assert forall i :: 0 <= i < |front| ==> front[i] == all[i];
    if c in MergedMap(front) {
      MergedFirst(front, c);
      var g := MergedMap(front)[c].firstMessage;
      if conv.contact == c {
        if f == conv.firstMessage && f != g {
          forall i | 0 <= i < |front| && front[i].contact == c && front[i].firstMessage != ""
            ensures !Less(front[i].firstMessage, f)
          {
            if Less(front[i].firstMessage, f) {
              LessTransitive(front[i].firstMessage, f, g);
            }
          }
        } else {
          assert f == g;
          if g != "" {
            var i :| 0 <= i < |front| && front[i].contact == c && front[i].firstMessage == g;
            assert all[i].firstMessage == g;
          }
        }
      } else {
        if f != "" {
          var i :| 0 <= i < |front| && front[i].contact == c && front[i].firstMessage == f;
          assert all[i].firstMessage == f;
        }
      }
    } else {
      MergedAbsent(front, c);
      assert conv.contact == c && f == conv.firstMessage;
    }
  }

  /**
   * A merged entry's `lastMessage` is the greatest non-empty last date among
   * the rows of its contact, and `""` exactly when they are all empty.
   */
  lemma {:induction false} MergedLast(all: seq<Summary>, c: string)
    requires c in MergedMap(all)
    ensures var l := MergedMap(all)[c].lastMessage;
      && (l == "" <==> forall i :: 0 <= i < |all| && all[i].contact == c ==> all[i].lastMessage == "")
      && (l != "" ==> exists i :: 0 <= i < |all| && all[i].contact == c && all[i].lastMessage == l)
      && (forall i :: 0 <= i < |all| && all[i].contact == c && all[i].lastMessage != "" ==> !Less(l, all[i].lastMessage))
  {
    var front := all[..|all| - 1];
    var conv := all[|all| - 1];
    var l := MergedMap(all)[c].lastMessage;
    LessIrreflexive(l);
    assert forall i :: 0 <= i < |front| ==> front[i] == all[i];
    if c in MergedMap(front) {
      MergedLast(front, c);
      var g := MergedMap(front)[c].lastMessage;
      if conv.contact == c {
        if l == conv.lastMessage && l != g {
          forall i | 0 <= i < |front| && front[i].contact == c && front[i].lastMessage != ""
            ensures !Less(l, front[i].lastMessage)
          {
            if Less(l, front[i].lastMessage) {
              LessTransitive(g, l, front[i].lastMessage);
            }
          }
        } else {
          assert l == g;
          if g != "" {
            var i :| 0 <= i < |front| && front[i].contact == c && front[i].lastMessage == g;
            assert all[i].lastMessage == g;
          }
        }
      } else {
        if l != "" {
          var i :| 0 <= i < |front| && front[i].contact == c && front[i].lastMessage == l;
          assert all[i].lastMessage == l;
        }
      }
    } else {
      MergedAbsent(front, c);
      assert conv.contact == c && l == conv.lastMessage;
    }
  }

  /** A contact absent from the map has no row yet. */
  lemma MergedAbsent(all: seq<Summary>, c: string)
    requires c !in MergedMap(all)
    ensures forall i :: 0 <= i < |all| ==> all[i].contact != c
  {
    MergedMapKeys(all);
  }

  // ---------------------------------------------------------------------
  // list(contact_map.values()) and the sort (visualizer.py:137-139)
  // ---------------------------------------------------------------------

  /** The entries of the map in key order. */
  function Values(order: seq<string>, m: map<string, Summary>): (r: seq<Summary>)
    requires forall c :: c in order ==> c in m
    ensures |r| == |order| && forall i :: 0 <= i < |r| ==> r[i] == m[order[i]]
  {
    if order == [] then [] else Values(order[..|order| - 1], m) + [m[order[|order| - 1]]]
  }

  /** `x` placed after every entry of the sorted `s` with at least its count: a stable descending insertion. */
  function InsertDesc(s: seq<Summary>, x: Summary): (r: seq<Summary>)
    ensures multiset(r) == multiset(s) + multiset{x}
  {
    if s == [] || s[|s| - 1].messageCount >= x.messageCount then s + [x]
    else
      assert s == s[..|s| - 1] + [s[|s| - 1]];
      InsertDesc(s[..|s| - 1], x) + [s[|s| - 1]]
  }

  /** `sort(key=lambda x: x["messageCount"], reverse=True)`. */
  function SortByCount(xs: seq<Summary>): (r: seq<Summary>)
    ensures multiset(r) == multiset(xs)
  {
    if xs == [] then []
    else
      assert xs == xs[..|xs| - 1] + [xs[|xs| - 1]];
      InsertDesc(SortByCount(xs[..|xs| - 1]), xs[|xs| - 1])
  }

  predicate Descending(xs: seq<Summary>) {
    forall i, j :: 0 <= i < j < |xs| ==> xs[i].messageCount >= xs[j].messageCount
  }

  lemma {:induction false} InsertDescSorted(s: seq<Summary>, x: Summary)
    requires Descending(s)
    ensures Descending(InsertDesc(s, x))
  {
    if !(s == [] || s[|s| - 1].messageCount >= x.messageCount) {
      var front := s[..|s| - 1];
      var last := s[|s| - 1];
      assert forall i :: 0 <= i < |front| ==> front[i] == s[i];
      InsertDescSorted(front, x);
      var ins := InsertDesc(front, x);
      forall i | 0 <= i < |ins|
        ensures ins[i].messageCount >= last.messageCount
      {
        assert ins[i] in multiset(ins);
        if ins[i] != x {
          assert ins[i] in multiset(front);
          var k :| 0 <= k < |front| && front[k] == ins[i];
        }
      }
    }
  }

  /** The sort puts the entries in descending count order and keeps every entry. */
  lemma {:induction false} SortByCountCorrect(xs: seq<Summary>)
    ensures Descending(SortByCount(xs))
    ensures multiset(SortByCount(xs)) == multiset(xs)
  {
    if xs != [] {
      SortByCountCorrect(xs[..|xs| - 1]);
      InsertDescSorted(SortByCount(xs[..|xs| - 1]), xs[|xs| - 1]);
    }
  }
  /** The entries with a given message count, in order. */
  function OfCount(xs: seq<Summary>, c: int): seq<Summary> {
    if xs == [] then []
    else OfCount(xs[..|xs| - 1], c) + (if xs[|xs| - 1].messageCount == c then [xs[|xs| - 1]] else [])
  }

  lemma OfCountSnoc(xs: seq<Summary>, x: Summary, c: int)
    ensures OfCount(xs + [x], c) == OfCount(xs, c) + (if x.messageCount == c then [x] else [])
  {
    assert (xs + [x])[..|xs|] == xs;
  }

  /** Inserting `x` puts it after every entry with its count that was already there. */
  lemma {:induction false} InsertDescStable(s: seq<Summary>, x: Summary, c: int)
    ensures OfCount(InsertDesc(s, x), c) == OfCount(s, c) + (if x.messageCount == c then [x] else [])
  {
    if s == [] || s[|s| - 1].messageCount >= x.messageCount {
      OfCountSnoc(s, x, c);
    } else {
      var front := s[..|s| - 1];
      var last := s[|s| - 1];
      var tailX: seq<Summary> := if x.messageCount == c then [x] else [];
      var tailL: seq<Summary> := if last.messageCount == c then [last] else [];
      assert front + [last] == s;
      calc {
        OfCount(InsertDesc(s, x), c);
        == { OfCountSnoc(InsertDesc(front, x), last, c); }
        OfCount(InsertDesc(front, x), c) + tailL;
        == { InsertDescStable(front, x, c); }
        OfCount(front, c) + tailX + tailL;
        == { assert tailX == [] || tailL == []; }
        OfCount(front, c) + tailL + tailX;
        == { OfCountSnoc(front, last, c); }
        OfCount(s, c) + tailX;
      }
    }
  }

  /** Contacts with equal message counts keep their order in the map: Python's sort is stable, reversed or not. */
  lemma {:induction false} SortByCountStable(xs: seq<Summary>, c: int)
    ensures OfCount(SortByCount(xs), c) == OfCount(xs, c)
  {
    if xs != [] {
      var front := xs[..|xs| - 1];
      var last := xs[|xs| - 1];
      var tail: seq<Summary> := if last.messageCount == c then [last] else [];
      assert front + [last] == xs;
      calc {
        OfCount(SortByCount(xs), c);
        OfCount(InsertDesc(SortByCount(front), last), c);
        { InsertDescStable(SortByCount(front), last, c); }
        OfCount(SortByCount(front), c) + tail;
        { SortByCountStable(front, c); }
        OfCount(front, c) + tail;
        { OfCountSnoc(front, last, c); }
        OfCount(xs, c);
      }
    }
  }


  /** The summaries `get_conversation_data` returns for the gathered rows. */
  function Merged(all: seq<Summary>): seq<Summary> {
    MergedMapKeys(all);
    SortByCount(Values(Order(all), MergedMap(all)))
  }

  /** Two equal entries at different places occur twice. */
  lemma TwiceCounted(xs: seq<Summary>, i: nat, j: nat)
    requires i < j < |xs| && xs[i] == xs[j]
    ensures multiset(xs)[xs[i]] >= 2
  {
    assert xs == xs[..j] + [xs[j]] + xs[j + 1..];
    assert xs[i] in xs[..j];
  }

  /** An entry of a list without repeated entries occurs once. */
  lemma {:induction false} DistinctOnce(xs: seq<Summary>, v: Summary)
    requires forall i, j :: 0 <= i < j < |xs| ==> xs[i] != xs[j]
    ensures multiset(xs)[v] <= 1
  {
    if xs != [] {
      var front := xs[..|xs| - 1];
      var last := xs[|xs| - 1];
      assert xs == front + [last];
      assert forall i :: 0 <= i < |front| ==> front[i] == xs[i];
      DistinctOnce(front, v);
      if last == v {
        assert v !in front;
      }
    }
  }

  /** An entry of the values of a duplicate-free order occurs once. */
  lemma ValuesOnce(order: seq<string>, m: map<string, Summary>, v: Summary)
    requires forall c :: c in order ==> c in m && m[c].contact == c
    requires NoDup(order)
    ensures multiset(Values(order, m))[v] <= 1
  {
    var vals := Values(order, m);
    forall i, j | 0 <= i < j < |vals|
      ensures vals[i] != vals[j]
    {
      assert vals[i].contact == order[i] && vals[j].contact == order[j];
    }
    DistinctOnce(vals, v);
  }

  /** Every merged entry is the map's entry for its contact, so it carries that contact's totals and dates. */
  lemma MergedEntries(all: seq<Summary>)
    ensures var r := Merged(all);
      forall i :: 0 <= i < |r| ==> r[i].contact in MergedMap(all) && r[i] == MergedMap(all)[r[i].contact]
  {
    MergedMapKeys(all);
    var m := MergedMap(all);
    var vals := Values(Order(all), m);
    var r := Merged(all);
    forall i | 0 <= i < |r|
      ensures r[i].contact in m && r[i] == m[r[i].contact]
    {
      assert r[i] in multiset(vals);
      var k :| 0 <= k < |vals| && vals[k] == r[i];
      var c := Order(all)[k];
      assert c in Order(all) && c in m;
      assert r[i] == m[c] && m[c].contact == c;
    }
  }

  /** The merged list holds one entry per contact of the rows, in descending order of message count. */
  lemma MergedOnePerContact(all: seq<Summary>)
    ensures var r := Merged(all);
      && Descending(r)
      && (forall i, j :: 0 <= i < j < |r| ==> r[i].contact != r[j].contact)
  {
    MergedMapKeys(all);
    var m := MergedMap(all);
    var vals := Values(Order(all), m);
    var r := Merged(all);
    assert r == SortByCount(vals);
    SortByCountCorrect(vals);
    forall i, j | 0 <= i < j < |r|
      ensures r[i].contact != r[j].contact
    {
      if r[i].contact == r[j].contact {
        MergedEntries(all);
        TwiceCounted(r, i, j);
        ValuesOnce(Order(all), m, r[i]);
      }
    }
  }

  /** Every contact of the rows has an entry in the merged list, and no other contact has one. */
  lemma MergedCoversContacts(all: seq<Summary>)
    ensures var r := Merged(all);
      && (forall k :: 0 <= k < |all| ==> exists i :: 0 <= i < |r| && r[i].contact == all[k].contact)
      && (forall i :: 0 <= i < |r| ==> exists k :: 0 <= k < |all| && all[k].contact == r[i].contact)
  {
    MergedMapKeys(all);
    MergedEntries(all);
    var m := MergedMap(all);
    var vals := Values(Order(all), m);
    var r := Merged(all);
    assert r == SortByCount(vals);
    forall k | 0 <= k < |all|
      ensures exists i :: 0 <= i < |r| && r[i].contact == all[k].contact
    {
      var c := all[k].contact;
      assert exists j :: 0 <= j < |all| && all[j].contact == c;
      assert c in Order(all);
      var o :| 0 <= o < |Order(all)| && Order(all)[o] == c;
      assert vals[o] in multiset(r);
      var i :| 0 <= i < |r| && r[i] == vals[o];
    }
  }

  /** One more row adds its contact to the map and the order, or combines it into the contact's entry. */
  lemma MergeLoopStep(all: seq<Summary>, i: nat, m: map<string, Summary>, o: seq<string>)
    requires i < |all| && m == MergedMap(all[..i]) && o == Order(all[..i])
    ensures var c := all[i].contact;
      && (c !in m ==> MergedMap(all[..i + 1]) == m[c := all[i]] && Order(all[..i + 1]) == o + [c])
      && (c in m ==> MergedMap(all[..i + 1]) == m[c := Combine(m[c], all[i])] && Order(all[..i + 1]) == o)
      && (c in m ==> m[c].contact == c)
  {
    assert all[..i + 1][..i] == all[..i];
    MergedMapKeys(all[..i]);
  }

  /** The merge loop over `all_conversations`, then the values in insertion order, sorted. */
  method MergeConversations(allConversations: seq<Summary>) returns (mergedConversations: seq<Summary>)
    ensures mergedConversations == Merged(allConversations)
  {
    var contactMap: map<string, Summary> := map[];
    var order: seq<string> := [];
    var i := 0;
    while i < |allConversations|
      invariant 0 <= i <= |allConversations|
      invariant contactMap == MergedMap(allConversations[..i]) && order == Order(allConversations[..i])
    {
      MergeLoopStep(allConversations, i, contactMap, order);
      var conv := allConversations[i];
      var contact := conv.contact;
      if contact !in contactMap {
        contactMap := contactMap[contact := conv];
        order := order + [contact];
      } else {
        var existing := contactMap[contact];
        var firstMessage := existing.firstMessage;
        if conv.firstMessage != "" && (existing.firstMessage == "" || Less(conv.firstMessage, existing.firstMessage)) {
          firstMessage := conv.firstMessage;
        }
        var lastMessage := existing.lastMessage;
        if conv.lastMessage != "" && (existing.lastMessage == "" || Less(existing.lastMessage, conv.lastMessage)) {
          lastMessage := conv.lastMessage;
        }
        var combined := Summary(
          contact,
          existing.messageCount + conv.messageCount,
          firstMessage, lastMessage,
          existing.sentCount + conv.sentCount,
          existing.receivedCount + conv.receivedCount);
        assert combined == Combine(existing, conv);
        contactMap := contactMap[contact := combined];
      }
      i := i + 1;
    }
    assert allConversations[..i] == allConversations;
    MergedMapKeys(allConversations);
    mergedConversations := SortByCount(Values(order, contactMap));
  }
}

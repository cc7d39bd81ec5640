/**
 * The text tests the two dataset builders (data_dashboard.py and
 * get_convos.py) apply to an iMessage body: the URL pattern, the two
 * reaction patterns, and the special characters they remove or reject.
 */
module ChatText {
  import opened Wrappers
  import opened Text
  import Reply

  /** U+FFFC, the object replacement character attachments leave in a body. */
  const ObjectReplacement: char := '\U{FFFC}'
  /** U+FFFD, the replacement character of a badly decoded body. */
  const ReplacementChar: char := '\U{FFFD}'

  /** A match of `https?://\S+` starts at index `i`. */
  predicate UrlAt(t: string, i: nat)
    requires i <= |t|
  {
    || (StartsWith(t[i..], "http://") && i + 7 < |t| && !IsSpace(t[i + 7]))
    || (StartsWith(t[i..], "https://") && i + 8 < |t| && !IsSpace(t[i + 8]))
  }

  /** `URL_PATTERN.search(t)`. */
  predicate HasUrl(t: string) {
    exists i :: 0 <= i < |t| && UrlAt(t, i)
  }

  /** The reaction verbs of data_dashboard.py:17-19, in the order the alternation tries them. */
  const DashboardVerbs: seq<string> := ["Loved", "Liked", "Laughed at", "Disliked", "Emphasized"]

  /** The reaction verbs of get_convos.py:10. */
  const QuotedVerbs: seq<string> := ["Loved", "Liked", "Laughed at", "Disliked"]

  /** The first verb `v` of the list with `t` starting with `v` and a space. */
  function FirstVerb(verbs: seq<string>, t: string): (r: Option<string>)
    ensures r.Some? <==> exists i :: 0 <= i < |verbs| && StartsWith(t, verbs[i] + " ")
    ensures r.Some? ==> r.value in verbs && StartsWith(t, r.value + " ")
  {
    if verbs == [] then None
    else if StartsWith(t, verbs[0] + " ") then Some(verbs[0])
    else
      var rest := FirstVerb(verbs[1..], t);
      assert forall i :: 1 <= i < |verbs| ==> verbs[i] == verbs[1..][i - 1];
      rest
  }

  /** `re.match(r"^(Loved|Liked|Laughed at|Disliked|Emphasized) ", t)`, with the verb it captured. */
  function DashboardReaction(t: string): (r: Option<string>)
    ensures r.Some? ==> r.value in DashboardVerbs && StartsWith(t, r.value + " ")
    ensures r.None? ==> forall v :: v in DashboardVerbs ==> !StartsWith(t, v + " ")
  {
    FirstVerb(DashboardVerbs, t)
  }

  /**
   * `re.match(r'^(Loved|Liked|Laughed at|Disliked) ".+"$', t, re.DOTALL)` on
   * stripped text (which has no final newline for `$` to stop before): a
   * verb, a space, and at least one character between double quotes
   * closing the text.
   */
  predicate IsQuotedReaction(t: string) {
    exists i :: 0 <= i < |QuotedVerbs| && QuotedAt(t, QuotedVerbs[i])
  }

  predicate QuotedAt(t: string, verb: string) {
    StartsWith(t, verb + " \"") && |t| >= |verb| + 4 && t[|t| - 1] == '"'
  }

  /** The token a reaction of mine becomes: `f"<|{reaction_type}|>"`. */
  function ReactionToken(verb: string): string {
    "<|" + verb + "|>"
  }

  /** A reaction of mine becomes one of the reaction tokens the reply generator recognises. */
  lemma ReactionTokenKnown(verb: string)
    requires verb in DashboardVerbs
    ensures Reply.IsReaction(ReactionToken(verb))
  {
    var t := ReactionToken(verb);
    if verb == "Loved" {
      assert t == Reply.Reactions[2];
    } else if verb == "Liked" {
      assert t == Reply.Reactions[0];
    } else if verb == "Laughed at" {
      assert t == Reply.Reactions[1];
    } else if verb == "Disliked" {
      assert t == Reply.Reactions[3];
    } else {
      assert t == Reply.Reactions[5];
    }
  }

  /** A reaction token has no outer whitespace and no special character. */
  lemma ReactionTokenPlain(verb: string)
    requires verb in DashboardVerbs
    ensures IsTrimmed(ReactionToken(verb))
    ensures ObjectReplacement !in ReactionToken(verb) && ReplacementChar !in ReactionToken(verb)
  {
    var t := ReactionToken(verb);
    assert t == "<|" + verb + "|>";
    assert t[0] == '<' && t[|t| - 1] == '>';
    assert forall i :: 0 <= i < |t| ==> t[i] == '<' || t[i] == '|' || t[i] == '>' || t[i] in verb;
  }

  /** Dropping leading whitespace leaves a suffix. */
  lemma {:induction false} TrimLeftSuffix(s: string)
    ensures exists k :: 0 <= k <= |s| && TrimLeft(s) == s[k..]
  {
    if s != [] && IsSpace(s[0]) {
      TrimLeftSuffix(s[1..]);
      var k :| 0 <= k <= |s[1..]| && TrimLeft(s[1..]) == s[1..][k..];
      assert s[1..][k..] == s[k + 1..];
    } else {
      assert s[0..] == s;
    }
  }

  /** Dropping trailing whitespace leaves a prefix. */
  lemma {:induction false} TrimRightPrefix(s: string)
    ensures exists k :: 0 <= k <= |s| && TrimRight(s) == s[..k]
  {
    if s != [] && IsSpace(s[|s| - 1]) {
      TrimRightPrefix(s[..|s| - 1]);
      var k :| 0 <= k <= |s| - 1 && TrimRight(s[..|s| - 1]) == s[..|s| - 1][..k];
      assert s[..|s| - 1][..k] == s[..k];
    } else {
      assert s[..|s|] == s;
    }
  }

  /** Stripping adds no character. */
  lemma StripKeeps(s: string, c: char)
    requires c !in s
    ensures c !in Strip(s)
  {
    TrimLeftSuffix(s);
    var k :| 0 <= k <= |s| && TrimLeft(s) == s[k..];
    TrimRightPrefix(s[k..]);
    var j :| 0 <= j <= |s[k..]| && TrimRight(s[k..]) == s[k..][..j];
    assert Strip(s) == s[k..][..j];
  }

  /** Removing a character the text does not hold changes nothing. */
  lemma {:induction false} RemoveAbsentChar(s: string, c: char)
    requires c !in s
    ensures RemoveChar(s, c) == s
  {
    if s != [] {
      RemoveAbsentChar(s[1..], c);
      assert s == [s[0]] + s[1..];
    }
  }

  /** A reaction token comes out of the cleaning unchanged. */
  lemma CleanReactionToken(verb: string)
    requires verb in DashboardVerbs
    ensures CleanBody(ReactionToken(verb)) == ReactionToken(verb)
  {
    ReactionTokenPlain(verb);
    RemoveAbsentChar(ReactionToken(verb), ObjectReplacement);
    StripIdentity(ReactionToken(verb));
  }

  /** `t.replace("￼", "").strip()`. */
  function CleanBody(t: string): (r: string)
    ensures ObjectReplacement !in r
    ensures r == [] <==> IsBlank(RemoveChar(t, ObjectReplacement))
    ensures r != [] ==> IsTrimmed(r)
  {
    var s := RemoveChar(t, ObjectReplacement);
    StripEmptyIffBlank(s);
    StripKeeps(s, ObjectReplacement);
    Strip(s)
  }
}

/**
 The three pieces of text munging that `tweak_snippet` applies to a snippet:
 the keyword affix strip (`re.sub(r'^:(.+):$', r'\1', keyword)`), the short
 collection label (two `str.replace` passes) and the rewritten display
 name `Emoji | <label> | <name> | <keyword>`.
 */
module Naming {
  import opened Text

  /** The delimiter baked into upstream keywords, re-applied globally through the manifest. */
  const COMMON_PREFIX: char := ':'
  const COMMON_SUFFIX: char := ':'

  const EMOJI_MARKER := "[Emoji] "
  const SNIPPETS_EXTENSION := ".alfredsnippets"

  /** Regex `.` matches every character except a newline. */
  predicate NoNewline(s: string)
  {
    '\n' !in s
  }

  /**
   The regex `^:(.+):$` matches the first `e` characters of `k`: a `:`, at
   least one non-newline character, a `:`, and then `$`, which Python
   matches at the very end of the string or just before a final newline.
   */
  predicate AffixMatch(k: string, e: int)
  {
    && 3 <= e <= |k|
    && k[0] == COMMON_PREFIX
    && k[e - 1] == COMMON_SUFFIX
    && NoNewline(k[1..e - 1])
    && (e == |k| || (e == |k| - 1 && k[e] == '\n'))
  }

  /**
   `re.sub(r'^:(.+):$', r'\1', k)`: when the pattern matches, the matched
   text is replaced by its group (the characters between the two
   delimiters) and whatever follows the match is kept; otherwise `k` is
   returned unchanged. The pattern is anchored at the start, so it can match at
   most once.
   */
  function StripAffix(k: string): string
  {
    if AffixMatch(k, |k|) then k[1..|k| - 1]
    else if AffixMatch(k, |k| - 1) then k[1..|k| - 2] + k[|k| - 1..]
    else k
  }

  /** Where the pattern matches, its group and the text after the match remain; where it does not, `k` is unchanged. */
  lemma StripAffixMatch(k: string)
    ensures forall e :: AffixMatch(k, e) ==> StripAffix(k) == k[1..e - 1] + k[e..]
    ensures (forall e :: !AffixMatch(k, e)) ==> StripAffix(k) == k
  {
  }

  /** For keywords without newlines the strip is the simple rule: a matched pair of delimiters around at least one character is removed. */
  lemma StripAffixPlain(k: string)
    requires NoNewline(k)
    ensures StripAffix(k) ==
      if |k| >= 3 && k[0] == ':' && k[|k| - 1] == ':' then k[1..|k| - 1] else k
  {
    if |k| >= 3 && k[0] == ':' && k[|k| - 1] == ':' {
      assert forall c :: c in k[1..|k| - 1] ==> c in k;
      assert AffixMatch(k, |k|);
    } else if |k| >= 4 {
      assert k[|k| - 1] in k;
      assert !AffixMatch(k, |k| - 1);
    }
  }

  /** Re-applying the manifest's prefix and suffix to a stripped keyword restores it. */
  lemma StripThenRewrap(k: string)
    requires NoNewline(k)
    requires StripAffix(k) != k
    ensures [COMMON_PREFIX] + StripAffix(k) + [COMMON_SUFFIX] == k
  {
    StripAffixPlain(k);
  }

  lemma StripAffixExamples()
    ensures StripAffix(":coffee:") == "coffee"
    ensures StripAffix(":a:b:") == "a:b"
    ensures StripAffix("::") == "::"
    ensures StripAffix(":a") == ":a"
    ensures StripAffix("coffee") == "coffee"
  {
    StripAffixPlain(":coffee:");
    StripAffixPlain(":a:b:");
    StripAffixPlain("::");
    StripAffixPlain(":a");
    StripAffixPlain("coffee");
  }

  /** `collection.replace('[Emoji] ', '').replace('.alfredsnippets', '')` */
  function Label(collection: string): (short: string)
    ensures |short| <= |collection|
  {
    ReplaceAll(ReplaceAll(collection, EMOJI_MARKER, ""), SNIPPETS_EXTENSION, "")
  }

  /** An upstream collection name `[Emoji] X.alfredsnippets` is labelled `X`. */
  lemma LabelOfUpstreamCollection(x: string)
    requires '[' !in x && '.' !in x
    ensures Label(EMOJI_MARKER + x + SNIPPETS_EXTENSION) == x
  {
    var rest := x + SNIPPETS_EXTENSION;
    assert EMOJI_MARKER + x + SNIPPETS_EXTENSION == EMOJI_MARKER + rest;
    ReplaceAllAtFront(EMOJI_MARKER, rest, "");
    assert '[' !in SNIPPETS_EXTENSION;
    assert '[' !in rest;
    assert ReplaceAll(EMOJI_MARKER + rest, EMOJI_MARKER, "") == rest;
    ReplaceAllSkips(x, SNIPPETS_EXTENSION, SNIPPETS_EXTENSION, "");
    ReplaceAllAtFront(SNIPPETS_EXTENSION, "", "");
    assert SNIPPETS_EXTENSION + "" == SNIPPETS_EXTENSION;
  }

  lemma LabelExamples()
    ensures Label(EMOJI_MARKER + "Weather" + SNIPPETS_EXTENSION) == "Weather"
    ensures Label(EMOJI_MARKER + "Food and Drink" + SNIPPETS_EXTENSION) == "Food and Drink"
  {
    LabelOfUpstreamCollection("Weather");
    LabelOfUpstreamCollection("Food and Drink");
  }

  /**
   Deriving the label twice is not the same as deriving it once: removing
   one marker can join the characters around it into another marker. The
   witness is `[Emo[Emoji] ji] `, passed in pieces.
   */
  lemma LabelNotIdempotent(head: string, tail: string)
    requires head == "[Emo" && tail == "ji] "
    ensures Label(head + EMOJI_MARKER + tail) == EMOJI_MARKER
    ensures Label(Label(head + EMOJI_MARKER + tail)) == ""
  {
    MarkerRemovalJoinsMarker(head, tail);
    ReplaceAllAtFront(EMOJI_MARKER, "", "");
    assert EMOJI_MARKER + "" == EMOJI_MARKER;
  }

  lemma MarkerRemovalJoinsMarker(head: string, tail: string)
    requires head == "[Emo" && tail == "ji] "
    ensures ReplaceAll(head + EMOJI_MARKER + tail, EMOJI_MARKER, "") == EMOJI_MARKER
  {
    MarkerPieces(head, tail);
    RemovalJoins(head[0], head[1..], EMOJI_MARKER, tail);
  }

  /** How the witness of `LabelNotIdempotent` lies around the marker. */
  lemma MarkerPieces(head: string, tail: string)
    requires head == "[Emo" && tail == "ji] "
    ensures EMOJI_MARKER[0] !in head[1..] && EMOJI_MARKER[0] !in tail
    ensures head + EMOJI_MARKER + tail == [head[0]] + (head[1..] + (EMOJI_MARKER + tail))
    ensures !StartsWith(head + EMOJI_MARKER + tail, EMOJI_MARKER)
    ensures [head[0]] + (head[1..] + tail) == EMOJI_MARKER
  {
    var s := head + EMOJI_MARKER + tail;
    assert s[4] == EMOJI_MARKER[0];
    MismatchAt(s, EMOJI_MARKER, 4);
  }

  /**
   Removing `pat` from `[c] + a + pat + t`, where no occurrence starts at the
   front and neither `a` nor `t` holds the pattern's first character, joins
   the text around it.
   */
  lemma RemovalJoins(c: char, a: string, pat: string, t: string)
    requires |pat| > 0 && pat[0] !in a && pat[0] !in t
    requires !StartsWith([c] + (a + (pat + t)), pat)
    ensures ReplaceAll([c] + (a + (pat + t)), pat, "") == [c] + (a + t)
  {
    var rest := pat + t;
    ReplaceAllAtFront(pat, t, "");
    assert ReplaceAll(rest, pat, "") == t by {
      assert ReplaceAll(t, pat, "") == t;
      assert "" + t == t;
    }
    ReplaceAllSkips(a, rest, pat, "");
    ReplaceAllCopies(c, a + rest, pat, "");
  }

  /** The display name written back into the snippet. */
  function DisplayName(shortName: string, name: string, keyword: string): string
  {
    "Emoji | " + (shortName + (" | " + (name + (" | " + keyword))))
  }

  /**
   Display names keep the three parts apart when neither the label nor the
   name contains a `|`: then equal display names come from equal parts.
   */
  lemma DisplayNameInjective(l1: string, n1: string, k1: string, l2: string, n2: string, k2: string)
    requires '|' !in l1 && '|' !in n1 && '|' !in l2 && '|' !in n2
    requires DisplayName(l1, n1, k1) == DisplayName(l2, n2, k2)
    ensures l1 == l2 && n1 == n2 && k1 == k2
  {
    var t1, t2 := " | " + (n1 + (" | " + k1)), " | " + (n2 + (" | " + k2));
    assert l1 + t1 == DisplayName(l1, n1, k1)[8..];
    assert l2 + t2 == DisplayName(l2, n2, k2)[8..];
    SeparatedPrefix(l1, t1, l2, t2);
    assert n1 + (" | " + k1) == t1[3..];
    assert n2 + (" | " + k2) == t2[3..];
    SeparatedPrefix(n1, " | " + k1, n2, " | " + k2);
    assert k1 == (" | " + k1)[3..];
    assert k2 == (" | " + k2)[3..];
  }

  /** Two bar-free prefixes, each followed by a string starting with ` | `, can be told apart. */
  lemma SeparatedPrefix(a1: string, t1: string, a2: string, t2: string)
    requires '|' !in a1 && '|' !in a2
    requires |t1| >= 3 && t1[..3] == " | " && |t2| >= 3 && t2[..3] == " | "
    requires a1 + t1 == a2 + t2
    ensures a1 == a2 && t1 == t2
  {
    var s := a1 + t1;
    BarAfter(a1, t1, a2, t2);
    BarAfter(a2, t2, a1, t1);
    assert a1 == s[..|a1|] == a2;
    assert t1 == s[|a1|..] == t2;
  }

  /** In `a1 + t1 == a2 + t2` the bar that opens `t2` cannot fall inside the bar-free `a1`. */
  lemma BarAfter(a1: string, t1: string, a2: string, t2: string)
    requires '|' !in a1
    requires |t1| >= 3 && t1[..3] == " | " && |t2| >= 3 && t2[..3] == " | "
    requires a1 + t1 == a2 + t2
    ensures |a2| >= |a1|
  {
    var s := a1 + t1;
    var j := |a2| + 1;
    assert s[j] == t2[..3][1] == '|';
    assert forall x :: 0 <= x < |a1| ==> s[x] == a1[x];
    assert forall x :: 0 <= x < |a1| ==> a1[x] != '|';
    assert s[|a1|] == t1[..3][0] == ' ';
  }

  /**
   Without that condition the rewrite does not keep records apart: a `|`
   inside a name, or two collection names with the same label, give equal
   display names for different parts.
   */
  lemma DisplayNameCollisions()
    ensures DisplayName("A", "B | C", "k") == DisplayName("A | B", "C", "k")
    ensures Label(EMOJI_MARKER + "X" + SNIPPETS_EXTENSION) == Label("X") == "X"
  {
    LabelOfUpstreamCollection("X");
  }
}

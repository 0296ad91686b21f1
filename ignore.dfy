/**
 `should_be_ignored`: the collection files that `main` skips. Each entry of
 `COLLECTION_IGNORES` is a regular expression `^<body>$` whose body is
 literal text except for `.`, which matches any character but a newline;
 `re.match` anchors it at the start, and `$` matches at the end of the name
 or just before a final newline.
 */
module Ignore {

  const FINAL_COLLECTION_NAME := "Gimbo Big Emoji Collection.alfredsnippets"

  /** The bodies of the two patterns, between `^` and `$`. */
  const COLLECTION_IGNORES: seq<string> := ["Arrows.alfredsnippets", FINAL_COLLECTION_NAME]

  /** One pattern character against one name character. */
  predicate CharMatches(p: char, c: char)
  {
    if p == '.' then c != '\n' else c == p
  }

  /** `re.match('^' + body + '$', name)` for a body with no special character other than `.`. */
  predicate Matches(body: string, name: string)
  {
    && (|name| == |body| || (|name| == |body| + 1 && name[|body|] == '\n'))
    && forall i :: 0 <= i < |body| ==> CharMatches(body[i], name[i])
  }

  /** The reference: some pattern of the list matches the name. */
  predicate Ignored(name: string)
  {
    exists i :: 0 <= i < |COLLECTION_IGNORES| && Matches(COLLECTION_IGNORES[i], name)
  }

  /** The loop of `should_be_ignored`: the first matching pattern returns `True`. */
  method ShouldBeIgnored(name: string) returns (b: bool)
    ensures b <==> Ignored(name)
  {
    var k := 0;
    while k < |COLLECTION_IGNORES|
      invariant 0 <= k <= |COLLECTION_IGNORES|
      invariant forall i :: 0 <= i < k ==> !Matches(COLLECTION_IGNORES[i], name)
    {
      if Matches(COLLECTION_IGNORES[k], name) {
        return true;
      }
      k := k + 1;
    }
    return false;
  }

  /** A body matches itself: the placeholder collection and the script's own output are both skipped. */
  lemma IgnoresListed()
    ensures Ignored("Arrows.alfredsnippets")
    ensures Ignored(FINAL_COLLECTION_NAME)
  {
    assert Matches(COLLECTION_IGNORES[0], "Arrows.alfredsnippets");
    assert Matches(COLLECTION_IGNORES[1], FINAL_COLLECTION_NAME);
  }

  /** The `.` before the extension is not escaped, so any character may stand in its place. */
  lemma DotIsWildcard(c: char)
    requires c != '\n'
    ensures Ignored("Arrows" + [c] + "alfredsnippets")
  {
    var name := "Arrows" + [c] + "alfredsnippets";
    assert forall i :: 0 <= i < 21 && i != 6 ==> name[i] == COLLECTION_IGNORES[0][i];
    assert Matches(COLLECTION_IGNORES[0], name);
  }

  /** Every upstream emoji collection `[Emoji] X.alfredsnippets` is processed. */
  lemma UpstreamNotIgnored(x: string)
    ensures !Ignored("[Emoji] " + x + ".alfredsnippets")
  {
    var name := "[Emoji] " + x + ".alfredsnippets";
    assert name[0] == '[';
    forall i | 0 <= i < |COLLECTION_IGNORES|
      ensures !Matches(COLLECTION_IGNORES[i], name)
    {
      assert !CharMatches(COLLECTION_IGNORES[i][0], name[0]);
    }
  }
}

/**
 The hand-curated rule table `SNIPPET_ACTIONS`, keyed by (collection, uid),
 and the interpretation of its action strings by `tweak_snippet`:
 `'remove'`, `'rename:<keyword>:<name>'`, and anything else, which is
 ignored.
 */
module Rules {
  import opened Wrappers
  import opened Text

  const REMOVE := "remove"
  const RENAME_TAG := "rename:"

  const ACTIVITY := "[Emoji] Activity.alfredsnippets"
  const ALIASES := "[Emoji] Aliases.alfredsnippets"
  const FOOD_AND_DRINK := "[Emoji] Food and Drink.alfredsnippets"
  const OBJECTS := "[Emoji] Objects.alfredsnippets"
  const SYMBOLS := "[Emoji] Symbols.alfredsnippets"
  const TRAVEL_AND_PLACES := "[Emoji] Travel and Places.alfredsnippets"
  const WEATHER := "[Emoji] Weather.alfredsnippets"

  const RENAME_SPACE_INVADER := RENAME_TAG + "space-invader" + ":" + "Space Invader"
  const RENAME_NO_GOOD := RENAME_TAG + "ng" + ":" + "No Good (block)"
  const RENAME_SHOOTING_STAR := RENAME_TAG + "shoting-star-block" + ":" + "Shooting Star (block)"

  /** `SNIPPET_ACTIONS`: twelve removals of duplicates and three renamings of clashing snippets. */
  const SNIPPET_ACTIONS: map<(string, string), string> := map[
    (ACTIVITY, "DB104057-67D9-464E-87A7-E5C6A5C9E83F") := REMOVE,
    (ACTIVITY, "2CB14D66-8A2C-490E-B5BC-497C719BDE0D") := REMOVE,
    (ACTIVITY, "73D962B3-0883-46DB-BF17-7886E0E0D6BE") := REMOVE,
    (ALIASES, "1EFA2E1A-FC94-4E9E-8CA6-CCD9881F8EDB") := REMOVE,
    (ALIASES, "382C5551-7790-438B-B0DD-7D5085AE7562") := REMOVE,
    (ALIASES, "F5246F75-8B74-4A1C-A546-EA13B904CB80") := REMOVE,
    (FOOD_AND_DRINK, "21C550E1-8B7C-4C41-91FB-6A8FB11805DB") := REMOVE,
    (FOOD_AND_DRINK, "A7D1C140-433A-4CB5-9D08-0E039673A514") := REMOVE,
    (OBJECTS, "E5539CBF-8C94-4E63-A76F-28F5BB9A778D") := REMOVE,
    (SYMBOLS, "E7A892D4-EC10-4CEB-8FA4-DF406E69C24A") := REMOVE,
    (SYMBOLS, "746F2037-7C6A-4C6D-95B7-3E202A2EFD2B") := REMOVE,
    (TRAVEL_AND_PLACES, "E7AFDB70-D184-4550-9DAF-AFC7F17AA1E2") := REMOVE,
    (ALIASES, "7BBB3467-E963-4563-A24F-5ADB2A7134E3") := RENAME_SPACE_INVADER,
    (ALIASES, "4E959109-F9A1-471A-BE3E-E9F2FB91B923") := RENAME_NO_GOOD,
    (WEATHER, "17D5AB5B-7EE4-44AF-BDC6-52A1B0330DF7") := RENAME_SHOOTING_STAR
  ]

  /** `SNIPPET_ACTIONS.get((collection, uid))` */
  function RuleFor(collection: string, uid: string): (r: Option<string>)
    ensures r.Some? <==> (collection, uid) in SNIPPET_ACTIONS
    ensures r.Some? ==> r.value in SNIPPET_ACTIONS.Values
  {
    if (collection, uid) in SNIPPET_ACTIONS then Some(SNIPPET_ACTIONS[(collection, uid)]) else None
  }

  /** Only snippets of the seven listed upstream collections have a rule; every other collection is left as it is. */
  lemma RulesOnlyForListedCollections(collection: string, uid: string)
    requires collection !in {ACTIVITY, ALIASES, FOOD_AND_DRINK, OBJECTS, SYMBOLS, TRAVEL_AND_PLACES, WEATHER}
    ensures RuleFor(collection, uid).None?
  {
  }

  /** What a rule asks `tweak_snippet` to do with a snippet. */
  datatype Action = Keep | Drop | Rename(keyword: string, name: string)

  /** Unpacking `action[7:].split(':')` into two names raises when it does not give exactly two pieces. */
  datatype ActionError = RenameArity(pieces: nat)

  /**
   The branch `tweak_snippet` takes for a looked-up action: no rule or an
   unrecognised action keeps the snippet as it is, `'remove'` drops it, and
   `'rename:K:N'` renames it, provided the text after the tag holds exactly
   one `:`.
   */
  function Interpret(action: Option<string>): Result<Action, ActionError>
  {
    match action
    case None => Success(Keep)
    case Some(a) =>
      if a == REMOVE then Success(Drop)
      else if StartsWith(a, RENAME_TAG) then
        var pieces := Split(a[7..], ':');
        if |pieces| != 2 then Failure(RenameArity(|pieces|))
        else Success(Rename(pieces[0], pieces[1]))
      else Success(Keep)
  }

  /**
   `'remove'` and only it drops the snippet; no rule or an action that is
   neither `'remove'` nor a rename keeps it; a rename raises exactly when the
   text after the tag does not hold exactly one `:`, and otherwise yields the
   two colon-free parts the action was written from.
   */
  lemma InterpretCases(action: Option<string>)
    ensures Interpret(action) == Success(Drop) <==> action == Some(REMOVE)
    ensures Interpret(action) == Success(Keep) <==>
      action.None? || (action.value != REMOVE && !StartsWith(action.value, RENAME_TAG))
    ensures Interpret(action).Failure? <==>
      action.Some? && StartsWith(action.value, RENAME_TAG) && CountChar(action.value[7..], ':') != 1
    ensures Interpret(action).Success? && Interpret(action).value.Rename? ==>
      && action == Some(RENAME_TAG + Interpret(action).value.keyword + ":" + Interpret(action).value.name)
      && ':' !in Interpret(action).value.keyword && ':' !in Interpret(action).value.name
  {
    if action.Some? && action.value != REMOVE && StartsWith(action.value, RENAME_TAG) {
      SplitPieces(action.value[7..], ':');
      if |Split(action.value[7..], ':')| == 2 {
        RenameShape(action.value);
      }
    }
  }

  /** A rename action whose text after the tag splits in two is the tag, the two pieces and the `:` between them. */
  lemma RenameShape(a: string)
    requires StartsWith(a, RENAME_TAG)
    requires |Split(a[7..], ':')| == 2
    ensures var pieces := Split(a[7..], ':');
      && a == RENAME_TAG + pieces[0] + ":" + pieces[1]
      && ':' !in pieces[0] && ':' !in pieces[1]
  {
    var pieces := Split(a[7..], ':');
    SplitPieces(a[7..], ':');
    assert Join(pieces, ':') == pieces[0] + ":" + pieces[1] by {
      assert pieces[1..] == [pieces[1]];
    }
    assert a == a[..7] + a[7..];
  }

  /** A rename action written as `rename:K:N` with colon-free K and N parses back into K and N. */
  lemma RenameParses(keyword: string, name: string)
    requires ':' !in keyword && ':' !in name
    ensures Interpret(Some(RENAME_TAG + keyword + ":" + name)) == Success(Rename(keyword, name))
  {
    var a := RENAME_TAG + keyword + ":" + name;
    assert a[..7] == RENAME_TAG;
    assert a[7..] == keyword + [':'] + name;
    SplitTwo(keyword, name, ':');
  }

  /** The actions that occur in the table. */
  lemma TableValues()
    ensures SNIPPET_ACTIONS.Values == {REMOVE, RENAME_SPACE_INVADER, RENAME_NO_GOOD, RENAME_SHOOTING_STAR}
  {
    assert SNIPPET_ACTIONS[(ACTIVITY, "DB104057-67D9-464E-87A7-E5C6A5C9E83F")] == REMOVE;
    assert SNIPPET_ACTIONS[(ALIASES, "7BBB3467-E963-4563-A24F-5ADB2A7134E3")] == RENAME_SPACE_INVADER;
    assert SNIPPET_ACTIONS[(ALIASES, "4E959109-F9A1-471A-BE3E-E9F2FB91B923")] == RENAME_NO_GOOD;
    assert SNIPPET_ACTIONS[(WEATHER, "17D5AB5B-7EE4-44AF-BDC6-52A1B0330DF7")] == RENAME_SHOOTING_STAR;
  }

  /** The three renamings of the table, parsed. */
  lemma RenameSpaceInvader(action: string)
    requires action == RENAME_SPACE_INVADER
    ensures Interpret(Some(action)) == Success(Rename("space-invader", "Space Invader"))
  {
    assert RENAME_TAG + "space-invader" + ":" + "Space Invader" == action;
    RenameParses("space-invader", "Space Invader");
  }

  lemma RenameNoGood(action: string)
    requires action == RENAME_NO_GOOD
    ensures Interpret(Some(action)) == Success(Rename("ng", "No Good (block)"))
  {
    assert RENAME_TAG + "ng" + ":" + "No Good (block)" == action;
    RenameParses("ng", "No Good (block)");
  }

  lemma RenameShootingStar(action: string)
    requires action == RENAME_SHOOTING_STAR
    ensures Interpret(Some(action)) == Success(Rename("shoting-star-block", "Shooting Star (block)"))
  {
    assert RENAME_TAG + "shoting-star-block" + ":" + "Shooting Star (block)" == action;
    RenameParses("shoting-star-block", "Shooting Star (block)");
  }

  /** Every entry of the table is a removal or a well-formed renaming, so no lookup ever raises. */
  lemma TableWellFormed(collection: string, uid: string)
    ensures Interpret(RuleFor(collection, uid)).Success?
    ensures RuleFor(collection, uid).Some? ==> Interpret(RuleFor(collection, uid)).value != Keep
  {
    var rule := RuleFor(collection, uid);
    if rule.Some? {
      TableValues();
      var v := rule.value;
      assert v in {REMOVE, RENAME_SPACE_INVADER, RENAME_NO_GOOD, RENAME_SHOOTING_STAR};
      if v == RENAME_SPACE_INVADER {
        RenameSpaceInvader(v);
      } else if v == RENAME_NO_GOOD {
        RenameNoGood(v);
      } else if v == RENAME_SHOOTING_STAR {
        RenameShootingStar(v);
      }
    }
  }
}

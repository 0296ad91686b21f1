/**
 `tweak_snippet` and the code that drives it over the files of one
 extracted collection (`process_snippet`, `extract_and_process_snippets`).
 The function `TweakRecord` says what happens to a snippet's values; the
 class `SnippetIndex` holds the two global indexes and does the same thing
 in place, on shared `Snippet` objects.
 */
module Tweak {
  import opened Wrappers
  import opened Naming
  import opened Rules
  import opened Snippets
  import Multimap

  /** The effect of `tweak_snippet` on the values of one snippet. */
  datatype Outcome =
    | Removed(stripped: Record)
        // returns None; by then the keyword has been stripped in place
    | Kept(keyword: string, name: string, tweaked: Record)
        // indexed under `keyword` and `name`, then given its display name
    | Failed(error: ActionError, stripped: Record)
        // the rename action did not unpack; the keyword has been stripped

  /**
   `tweak_snippet` on values: strip the keyword's affix, look up and apply
   the rule, and, for a kept snippet, note the keyword and name it is
   indexed under and rewrite its name to `Emoji | label | name | keyword`.
   */
  function TweakRecord(r: Record): (o: Outcome)
  {
    var stripped := r.(keyword := StripAffix(r.keyword));
    match Interpret(RuleFor(r.collection, r.uid))
    case Failure(e) => Failed(e, stripped)
    case Success(Drop) => Removed(stripped)
    case Success(Keep) =>
      Kept(stripped.keyword, r.name, stripped.(name := DisplayName(Label(r.collection), r.name, stripped.keyword)))
    case Success(Rename(k, n)) =>
      Kept(k, n, r.(keyword := k, name := DisplayName(Label(r.collection), n, k)))
  }

  /**
   The outcome follows the rule's interpretation: a `remove` rule drops the
   snippet and a malformed rename raises, both after the keyword strip; a
   kept snippet is indexed under the renamed keyword and name, or under its
   stripped keyword and its own name, and gets the display name built from
   those.
   */
  lemma TweakRecordCases(r: Record)
    ensures var o, action := TweakRecord(r), Interpret(RuleFor(r.collection, r.uid));
      && (o.Removed? <==> action == Success(Drop))
      && (o.Failed? <==> action.Failure?)
      && (o.Failed? ==> o.error == action.error)
      && (!o.Kept? ==> o.stripped == r.(keyword := StripAffix(r.keyword)))
      && (o.Kept? && action.value.Rename? ==> o.keyword == action.value.keyword && o.name == action.value.name)
      && (o.Kept? && action.value == Keep ==> o.keyword == StripAffix(r.keyword) && o.name == r.name)
    ensures var o := TweakRecord(r);
      o.Kept? ==> o.tweaked == r.(keyword := o.keyword, name := DisplayName(Label(r.collection), o.name, o.keyword))
  {
  }

  /** With the table as written, `tweak_snippet` never raises. */
  lemma TweakNeverFails(r: Record)
    ensures !TweakRecord(r).Failed?
  {
    TableWellFormed(r.collection, r.uid);
  }

  /** A kept snippet keeps its collection, uid and payload. */
  lemma TweakKeepsIdentity(r: Record)
    requires TweakRecord(r).Kept?
    ensures var t := TweakRecord(r).tweaked;
      t.collection == r.collection && t.uid == r.uid && t.snippet == r.snippet
  {
  }

  /**
   Final display names keep kept snippets apart when the labels and the
   indexed names contain no `|`: equal display names mean equal labels,
   equal indexed names and equal final keywords.
   */
  lemma KeptNamesSeparate(r1: Record, r2: Record)
    requires TweakRecord(r1).Kept? && TweakRecord(r2).Kept?
    requires '|' !in Label(r1.collection) && '|' !in Label(r2.collection)
    requires '|' !in TweakRecord(r1).name && '|' !in TweakRecord(r2).name
    requires TweakRecord(r1).tweaked.name == TweakRecord(r2).tweaked.name
    ensures Label(r1.collection) == Label(r2.collection)
    ensures TweakRecord(r1).name == TweakRecord(r2).name
    ensures TweakRecord(r1).tweaked.keyword == TweakRecord(r2).tweaked.keyword
  {
    var o1, o2 := TweakRecord(r1), TweakRecord(r2);
    DisplayNameInjective(Label(r1.collection), o1.name, o1.keyword, Label(r2.collection), o2.name, o2.keyword);
  }

  /** Any snippet whose rule is `remove` is dropped, after its keyword has been stripped. */
  lemma TweakRemoved(r: Record)
    requires RuleFor(r.collection, r.uid) == Some(REMOVE)
    ensures TweakRecord(r) == Removed(r.(keyword := StripAffix(r.keyword)))
  {
    InterpretCases(RuleFor(r.collection, r.uid));
  }

  /** The first removal of the Activity collection drops its snippet. */
  lemma ScenarioRemove(r: Record)
    requires r.collection == ACTIVITY && r.uid == "DB104057-67D9-464E-87A7-E5C6A5C9E83F"
    ensures TweakRecord(r) == Removed(r.(keyword := StripAffix(r.keyword)))
  {
    assert RuleFor(r.collection, r.uid) == Some(REMOVE);
    TweakRemoved(r);
  }

  /** A rename rule sets the keyword and name the snippet is indexed under, then the display name is built from them. */
  lemma TweakRenamed(r: Record, keyword: string, name: string)
    requires Interpret(RuleFor(r.collection, r.uid)) == Success(Rename(keyword, name))
    ensures TweakRecord(r) == Kept(keyword, name, r.(keyword := keyword, name := DisplayName(Label(r.collection), name, keyword)))
  {
  }

  /** A snippet with no rule, or an unrecognised one, keeps its stripped keyword and its name, and is given its display name. */
  lemma TweakKept(r: Record)
    requires Interpret(RuleFor(r.collection, r.uid)) == Success(Keep)
    ensures var k := StripAffix(r.keyword);
      TweakRecord(r) == Kept(k, r.name, r.(keyword := k, name := DisplayName(Label(r.collection), r.name, k)))
  {
  }

  /** The shooting-star snippet of the Weather collection is renamed and then given its display name. */
  lemma ScenarioRename(r: Record)
    requires r.collection == WEATHER
    requires r.uid == "17D5AB5B-7EE4-44AF-BDC6-52A1B0330DF7"
    ensures TweakRecord(r) == Kept("shoting-star-block", "Shooting Star (block)",
      r.(keyword := "shoting-star-block", name := DisplayName("Weather", "Shooting Star (block)", "shoting-star-block")))
  {
    WeatherRule(r.collection, r.uid);
    TweakRenamed(r, "shoting-star-block", "Shooting Star (block)");
    WeatherLabel(r.collection);
  }

  lemma WeatherLabel(collection: string)
    requires collection == WEATHER
    ensures Label(collection) == "Weather"
  {
    assert collection == EMOJI_MARKER + "Weather" + SNIPPETS_EXTENSION;
    LabelOfUpstreamCollection("Weather");
  }

  lemma WeatherRule(collection: string, uid: string)
    requires collection == WEATHER
    requires uid == "17D5AB5B-7EE4-44AF-BDC6-52A1B0330DF7"
    ensures Interpret(RuleFor(collection, uid)) == Success(Rename("shoting-star-block", "Shooting Star (block)"))
  {
    assert RuleFor(collection, uid) == Some(RENAME_SHOOTING_STAR);
    RenameShootingStar(RuleFor(collection, uid).value);
  }

  /**
   Two collections `A` and `B` each hold a snippet with keyword `:coffee:`
   and no rule: both are kept under keyword `coffee` with distinct display
   names, and `coffee` is reported as a keyword clash listing both.
   */
  lemma ScenarioCoffee(ra: Record, rb: Record)
    requires ra.collection == "A" && rb.collection == "B"
    requires ra.keyword == ":coffee:" && rb.keyword == ":coffee:"
    ensures TweakRecord(ra) == Kept("coffee", ra.name, ra.(keyword := "coffee", name := DisplayName("A", ra.name, "coffee")))
    ensures TweakRecord(rb) == Kept("coffee", rb.name, rb.(keyword := "coffee", name := DisplayName("B", rb.name, "coffee")))
    ensures TweakRecord(ra).tweaked.name != TweakRecord(rb).tweaked.name
    ensures forall x: Record, y: Record ::
      var index := Multimap.Build([("coffee", x), ("coffee", y)]);
      "coffee" in Multimap.Clashes(index) && Multimap.Clashes(index)["coffee"] == [x, y]
  {
    assert (ra.collection, ra.uid) !in SNIPPET_ACTIONS;
    assert (rb.collection, rb.uid) !in SNIPPET_ACTIONS;
    StripAffixExamples();
    assert DisplayName("A", ra.name, "coffee")[8] == 'A';
    assert DisplayName("B", rb.name, "coffee")[8] == 'B';
    forall x: Record, y: Record
      ensures var index := Multimap.Build([("coffee", x), ("coffee", y)]);
        "coffee" in Multimap.Clashes(index) && Multimap.Clashes(index)["coffee"] == [x, y]
    {
      var entries := [("coffee", x), ("coffee", y)];
      assert entries[..1] == [("coffee", x)] && entries[..1][..0] == [];
      assert Multimap.Get(Multimap.Build(entries[..1]), "coffee") == [x];
      assert Multimap.Build(entries)["coffee"] == [x] + [y] == [x, y];
    }
  }

  /** What happens to one snippet file: it is deleted, or rewritten with new contents. */
  datatype FileEffect = Delete | Write(content: Json)

  /** The exceptions that abort the run while collections are processed. */
  datatype RunError = Malformed(parse: ParseError) | BadRule(action: ActionError)

  /** `process_snippet` on values: parse the file, tweak the snippet, and delete or rewrite the file. */
  function ProcessFile(content: Json, collection: string): (r: Result<(FileEffect, Outcome), RunError>)
    ensures FromJson(content, collection).Failure? ==> r == Failure(Malformed(FromJson(content, collection).error))
    ensures r.Success? ==>
      && FromJson(content, collection).Success?
      && r.value.1 == TweakRecord(FromJson(content, collection).value)
    ensures r.Success? ==> (r.value.0 == Delete <==> r.value.1.Removed?)
    ensures r.Success? && r.value.0.Write? ==> r.value.1.Kept? && r.value.0.content == ToJson(r.value.1.tweaked)
  {
    match FromJson(content, collection)
    case Failure(e) => Failure(Malformed(e))
    case Success(rec) =>
      var o := TweakRecord(rec);
      match o
      case Removed(_) => Success((Delete, o))
      case Failed(e, _) => Failure(BadRule(e))
      case Kept(_, _, t) =>
        Success((Write(ToJson(t)), o))
  }

  /**
   With the table as written, `process_snippet` raises exactly on a file
   whose snippet does not parse; such a file raises the parse error.
   */
  lemma ProcessFileSucceeds(content: Json, collection: string)
    ensures ProcessFile(content, collection).Success? <==> WellFormed(content)
    ensures !WellFormed(content) ==> ProcessFile(content, collection) == Failure(Malformed(FromJson(content, collection).error))
  {
    if WellFormed(content) {
      TweakNeverFails(FromJson(content, collection).value);
    }
  }

  /** A rewritten snippet file reads back, in its own collection, as the tweaked snippet. */
  lemma RewrittenFileParses(content: Json, collection: string)
    requires ProcessFile(content, collection).Success?
    requires ProcessFile(content, collection).value.0.Write?
    ensures var (effect, o) := ProcessFile(content, collection).value;
      FromJson(effect.content, collection) == Success(o.tweaked)
  {
    var (effect, o) := ProcessFile(content, collection).value;
    RoundTrip(o.tweaked);
  }

  /** The files of one extracted collection as they stand, and the keys indexed so far. */
  datatype Batch = Batch(dir: map<string, Json>, indexed: seq<Indexed>)

  /** A kept snippet as the indexes see it: the keyword and name it is listed under, and its final values. */
  datatype Indexed = Indexed(keyword: string, name: string, record: Record)

  predicate Distinct(files: seq<string>)
  {
    forall i, j :: 0 <= i < j < |files| ==> files[i] != files[j]
  }

  /** The files from position `i` on are still to be visited: all present in the directory and each listed once. */
  predicate Pending(dir: map<string, Json>, files: seq<string>, i: nat)
  {
    Distinct(files) && forall j :: i <= j < |files| ==> files[j] in dir
  }

  /** What a snippet adds to the indexes: nothing unless it is kept. */
  function IndexedOf(o: Outcome): seq<Indexed>
  {
    if o.Kept? then [Indexed(o.keyword, o.name, o.tweaked)] else []
  }

  /**
   `process_snippet` on the file `f` of a directory: the file is deleted or
   rewritten, and the result records the keys its snippet was indexed under.
   */
  function Visit(dir: map<string, Json>, f: string, collection: string): Result<Batch, RunError>
    requires f in dir
  {
    match ProcessFile(dir[f], collection)
    case Failure(e) => Failure(e)
    case Success((Delete, o)) => Success(Batch(dir - {f}, IndexedOf(o)))
    case Success((Write(j), o)) => Success(Batch(dir[f := j], IndexedOf(o)))
  }

  /** The result of a visit, from what `process_snippet` returns and the kept snippets it indexed. */
  function Returned(r: Result<map<string, Json>, RunError>, kept: seq<Indexed>): Result<Batch, RunError>
  {
    match r
    case Success(d) => Success(Batch(d, kept))
    case Failure(e) => Failure(e)
  }

  /** A visit removes the visited file exactly when it deletes it, leaves every other file as it was, and creates none. */
  lemma VisitFrame(dir: map<string, Json>, f: string, collection: string)
    requires f in dir
    ensures var r := Visit(dir, f, collection);
      && (r.Success? ==> (f in r.value.dir <==> !DeletedFile(dir, f, collection)))
      && (r.Success? ==> forall g :: g in dir && g != f ==> g in r.value.dir && r.value.dir[g] == dir[g])
      && (r.Success? ==> r.value.dir.Keys <= dir.Keys)
  {
  }

  /** A visit leaves the files after it pending. */
  lemma VisitPending(dir: map<string, Json>, files: seq<string>, i: nat, collection: string)
    requires Pending(dir, files, i) && i < |files|
    ensures Visit(dir, files[i], collection).Success? ==> Pending(Visit(dir, files[i], collection).value.dir, files, i + 1)
  {
    VisitFrame(dir, files[i], collection);
    if Visit(dir, files[i], collection).Success? {
      var after := Visit(dir, files[i], collection).value.dir;
      forall j | i + 1 <= j < |files|
        ensures files[j] in after
      {
        assert files[j] != files[i];
      }
    }
  }

  /**
   What `process_snippet` does with one file, case by case: a file that
   does not parse or whose rule does not unpack stops the run; otherwise it
   is deleted, with nothing indexed, or rewritten with the tweaked snippet,
   indexed under its keyword and name.
   */
  lemma VisitCases(dir: map<string, Json>, f: string, collection: string)
    requires f in dir
    ensures FromJson(dir[f], collection).Failure? ==>
      Visit(dir, f, collection) == Failure(Malformed(FromJson(dir[f], collection).error))
    ensures FromJson(dir[f], collection).Success? ==>
      var o := TweakRecord(FromJson(dir[f], collection).value);
      && (o.Failed? ==> Visit(dir, f, collection) == Failure(BadRule(o.error)))
      && (o.Removed? ==> Visit(dir, f, collection) == Success(Batch(dir - {f}, [])))
      && (o.Kept? ==>
            Visit(dir, f, collection) == Success(Batch(dir[f := ToJson(o.tweaked)], [Indexed(o.keyword, o.name, o.tweaked)])))
  {
  }

  /** Whether `process_snippet` deletes file `f` (a `remove` rule applies to its snippet). */
  predicate DeletedFile(dir: map<string, Json>, f: string, collection: string)
  {
    f in dir && ProcessFile(dir[f], collection).Success? && ProcessFile(dir[f], collection).value.0 == Delete
  }

  /** The rest of the loop of `extract_and_process_snippets`, from the state `b`, over the files from position `i` on. */
  function ProcessFrom(b: Batch, files: seq<string>, i: nat, collection: string): Result<Batch, RunError>
    requires Pending(b.dir, files, i)
    decreases |files| - i
  {
    if i >= |files| then Success(b)
    else
      VisitPending(b.dir, files, i, collection);
      match Visit(b.dir, files[i], collection)
      case Failure(e) => Failure(e)
      case Success(v) =>
        ProcessFrom(Batch(v.dir, b.indexed + v.indexed), files, i + 1, collection)
  }

  /** One turn of the loop: a failing file ends the run with its error, a processed one moves the run on. */
  lemma ProcessFromUnfold(b: Batch, files: seq<string>, i: nat, collection: string)
    requires Pending(b.dir, files, i) && i < |files|
    ensures Visit(b.dir, files[i], collection).Failure? ==>
      ProcessFrom(b, files, i, collection) == Failure(Visit(b.dir, files[i], collection).error)
    ensures Visit(b.dir, files[i], collection).Success? ==>
      var v := Visit(b.dir, files[i], collection).value;
      && Pending(v.dir, files, i + 1)
      && ProcessFrom(b, files, i, collection)
         == ProcessFrom(Batch(v.dir, b.indexed + v.indexed), files, i + 1, collection)
  {
    VisitPending(b.dir, files, i, collection);
  }

  /**
   After a successful pass over the collection's files from position `i`
   on, a file is gone exactly when a `remove` rule applied to its snippet,
   files not visited are untouched, and every other visited file holds what
   `process_snippet` wrote (which reads back as the tweaked snippet, by
   `RewrittenFileParses`).
   */
  lemma {:induction false} ProcessedFiles(b: Batch, files: seq<string>, i: nat, collection: string, f: string)
    requires Pending(b.dir, files, i) && i <= |files|
    requires ProcessFrom(b, files, i, collection).Success?
    ensures var after := ProcessFrom(b, files, i, collection).value.dir;
      && (f in after <==> f in b.dir && (Later(files, i, f) ==> !DeletedFile(b.dir, f, collection)))
      && (f in after && !Later(files, i, f) ==> after[f] == b.dir[f])
      && (f in after && Later(files, i, f) ==>
            && ProcessFile(b.dir[f], collection).Success?
            && after[f] == ProcessFile(b.dir[f], collection).value.0.content)
    decreases |files| - i
  {
    if i < |files| {
      ProcessFromUnfold(b, files, i, collection);
      var v := Visit(b.dir, files[i], collection).value;
      var b' := Batch(v.dir, b.indexed + v.indexed);
      ProcessedFiles(b', files, i + 1, collection, f);
      VisitFile(b.dir, files[i], collection, f);
      LaterStep(files, i, f);
    }
  }

  /** File `f` is listed at position `i` or after. */
  predicate Later(files: seq<string>, i: nat, f: string)
  {
    exists j :: i <= j < |files| && files[j] == f
  }

  /** A file is listed from `i` on when it is the one at `i` or is listed after it; in a list without repeats, not both. */
  lemma LaterStep(files: seq<string>, i: nat, f: string)
    requires Distinct(files) && i < |files|
    ensures Later(files, i, f) <==> f == files[i] || Later(files, i + 1, f)
    ensures f == files[i] ==> !Later(files, i + 1, f)
  {
    if Later(files, i, f) && f != files[i] {
      var j :| i <= j < |files| && files[j] == f;
      assert i + 1 <= j;
    }
  }

  /** What one visit leaves in place of file `g`. */
  lemma VisitFile(dir: map<string, Json>, f: string, collection: string, g: string)
    requires f in dir
    requires Visit(dir, f, collection).Success?
    ensures var after := Visit(dir, f, collection).value.dir;
      && (g != f ==> (g in after <==> g in dir) && (g in after ==> after[g] == dir[g]))
      && (g != f ==> DeletedFile(after, g, collection) == DeletedFile(dir, g, collection))
      && (g == f ==> (g in after <==> !DeletedFile(dir, f, collection)))
      && (g == f && g in after ==>
            && ProcessFile(dir[f], collection).Success?
            && after[g] == ProcessFile(dir[f], collection).value.0.content)
  {
    VisitFrame(dir, f, collection);
  }

  /** The keyword index entries of the kept snippets `xs`, held by the objects `objs`. */
  function KeywordLog(xs: seq<Indexed>, objs: seq<Snippet>): (log: seq<Multimap.Entry<Snippet>>)
    requires |xs| == |objs|
    ensures |log| == |xs|
    ensures forall t :: 0 <= t < |xs| ==> log[t] == (xs[t].keyword, objs[t])
  {
    seq(|xs|, t requires 0 <= t < |xs| => (xs[t].keyword, objs[t]))
  }

  /** The name index entries of the kept snippets `xs`, held by the objects `objs`. */
  function NameLog(xs: seq<Indexed>, objs: seq<Snippet>): (log: seq<Multimap.Entry<Snippet>>)
    requires |xs| == |objs|
    ensures |log| == |xs|
    ensures forall t :: 0 <= t < |xs| ==> log[t] == (xs[t].name, objs[t])
  {
    seq(|xs|, t requires 0 <= t < |xs| => (xs[t].name, objs[t]))
  }

  /** Each object of `objs` holds the tweaked values of the kept snippet at the same position of `xs`. */
  ghost predicate Holding(objs: seq<Snippet>, xs: seq<Indexed>)
    reads objs
  {
    |objs| == |xs| && forall t :: 0 <= t < |xs| ==> objs[t].Value() == xs[t].record
  }

  /** The objects of a sequence. */
  function Objects(objs: seq<Snippet>): set<Snippet>
  {
    set o | o in objs
  }

  /** Objects holding two runs of kept snippets hold them one after the other. */
  lemma HoldingConcat(objs: seq<Snippet>, xs: seq<Indexed>, more: seq<Snippet>, ys: seq<Indexed>)
    requires Holding(objs, xs) && Holding(more, ys)
    ensures Holding(objs + more, xs + ys)
  {
    forall t | 0 <= t < |xs + ys|
      ensures (objs + more)[t].Value() == (xs + ys)[t].record
    {
      if t < |xs| {
        assert (objs + more)[t] == objs[t] && (xs + ys)[t] == xs[t];
      } else {
        assert (objs + more)[t] == more[t - |xs|] && (xs + ys)[t] == ys[t - |xs|];
      }
    }
  }

  /** The logs of no kept snippet. */
  lemma EmptyLogs()
    ensures KeywordLog([], []) == [] && NameLog([], []) == []
  {
  }

  /** The logs of one kept snippet. */
  lemma SingleLogs(x: Indexed, s: Snippet)
    ensures KeywordLog([x], [s]) == [(x.keyword, s)] && NameLog([x], [s]) == [(x.name, s)]
  {
  }

  /** The logs of two runs one after the other. */
  lemma LogsConcat(xs: seq<Indexed>, objs: seq<Snippet>, ys: seq<Indexed>, more: seq<Snippet>)
    requires |xs| == |objs| && |ys| == |more|
    ensures KeywordLog(xs + ys, objs + more) == KeywordLog(xs, objs) + KeywordLog(ys, more)
    ensures NameLog(xs + ys, objs + more) == NameLog(xs, objs) + NameLog(ys, more)
  {
  }

  /** Logs extended by one run of kept snippets and then by another are extended by both, one after the other. */
  lemma LogsStep(k0: seq<Multimap.Entry<Snippet>>, n0: seq<Multimap.Entry<Snippet>>,
                 k1: seq<Multimap.Entry<Snippet>>, n1: seq<Multimap.Entry<Snippet>>,
                 k2: seq<Multimap.Entry<Snippet>>, n2: seq<Multimap.Entry<Snippet>>,
                 xs: seq<Indexed>, objs: seq<Snippet>, ys: seq<Indexed>, more: seq<Snippet>)
    requires Logs(k1, n1, k0, n0, xs, objs) && Logs(k2, n2, k1, n1, ys, more)
    ensures Logs(k2, n2, k0, n0, xs + ys, objs + more)
  {
    LogsConcat(xs, objs, ys, more);
    assert k2 == k0 + (KeywordLog(xs, objs) + KeywordLog(ys, more));
    assert n2 == n0 + (NameLog(xs, objs) + NameLog(ys, more));
  }

  /** The logs `k` and `n` are `k0` and `n0` followed by one entry each per kept snippet of `xs`, in order, held by the objects `objs`. */
  predicate Logs(k: seq<Multimap.Entry<Snippet>>, n: seq<Multimap.Entry<Snippet>>,
                 k0: seq<Multimap.Entry<Snippet>>, n0: seq<Multimap.Entry<Snippet>>, xs: seq<Indexed>, objs: seq<Snippet>)
  {
    |objs| == |xs| && k == k0 + KeywordLog(xs, objs) && n == n0 + NameLog(xs, objs)
  }

  class SnippetIndex {
    var byKeyword: map<string, seq<Snippet>>
    var byName: map<string, seq<Snippet>>
    /** Every append made so far, in order. */
    ghost var keywordEntries: seq<Multimap.Entry<Snippet>>
    ghost var nameEntries: seq<Multimap.Entry<Snippet>>

    ghost predicate Valid()
      reads this
    {
      byKeyword == Multimap.Build(keywordEntries) && byName == Multimap.Build(nameEntries)
    }

    /**
     The logs are `k0` and `n0` followed by one entry each per kept snippet
     of `xs`, in order, held by the objects `objs`, which still hold the
     snippets' tweaked values.
     */
    ghost predicate Extended(k0: seq<Multimap.Entry<Snippet>>, n0: seq<Multimap.Entry<Snippet>>, xs: seq<Indexed>, objs: seq<Snippet>)
      reads this, objs
    {
      Logs(keywordEntries, nameEntries, k0, n0, xs, objs) && Holding(objs, xs)
    }

    /** A run starts with fresh, empty indexes. */
    constructor ()
      ensures Valid()
      ensures keywordEntries == [] && nameEntries == []
      ensures byKeyword == map[] && byName == map[]
    {
      byKeyword, byName := map[], map[];
      keywordEntries, nameEntries := [], [];
    }

    /**
     `tweak_snippet`: changes `s` in place and appends that same object to
     both indexes, so the indexes see its rewritten name afterwards.
     */
    method TweakSnippet(s: Snippet) returns (r: Result<Option<Snippet>, ActionError>)
      requires Valid()
      modifies this, s
      ensures Valid()
      ensures var o := TweakRecord(old(s.Value()));
        match o
        case Removed(stripped) =>
          && r == Success(None) && s.Value() == stripped
          && keywordEntries == old(keywordEntries) && nameEntries == old(nameEntries)
        case Failed(e, stripped) =>
          && r == Failure(e) && s.Value() == stripped
          && keywordEntries == old(keywordEntries) && nameEntries == old(nameEntries)
        case Kept(keyword, name, tweaked) =>
          && r == Success(Some(s)) && s.Value() == tweaked
          && keywordEntries == old(keywordEntries) + [(keyword, s)]
          && nameEntries == old(nameEntries) + [(name, s)]
          && byKeyword == Multimap.Append(old(byKeyword), keyword, s)
          && byName == Multimap.Append(old(byName), name, s)
    {
      s.keyword := StripAffix(s.keyword);
      var action := Interpret(RuleFor(s.collection, s.uid));
      match action {
        case Failure(e) => return Failure(e);
        case Success(Drop) => return Success(None);
        case Success(Rename(keyword, name)) =>
          TweakRenamed(old(s.Value()), keyword, name);
          s.keyword, s.name := keyword, name;
        case Success(Keep) =>
          TweakKept(old(s.Value()));
      }
      IndexAndRename(s);
      return Success(Some(s));
    }

    /**
     The end of `tweak_snippet` for a kept snippet: append it to both indexes
     under its current keyword and name, then rewrite its name for display.
     */
    method IndexAndRename(s: Snippet)
      requires Valid()
      modifies this, s
      ensures Valid()
      ensures s.Value() == old(s.Value()).(name := DisplayName(Label(s.collection), old(s.name), s.keyword))
      ensures keywordEntries == old(keywordEntries) + [(s.keyword, s)]
      ensures nameEntries == old(nameEntries) + [(old(s.name), s)]
      ensures byKeyword == Multimap.Append(old(byKeyword), s.keyword, s)
      ensures byName == Multimap.Append(old(byName), old(s.name), s)
    {
      byKeyword := Multimap.Append(byKeyword, s.keyword, s);
      keywordEntries := keywordEntries + [(s.keyword, s)];
      byName := Multimap.Append(byName, s.name, s);
      nameEntries := nameEntries + [(s.name, s)];
      assert keywordEntries[..|keywordEntries| - 1] == old(keywordEntries);
      assert nameEntries[..|nameEntries| - 1] == old(nameEntries);
      var collection := Label(s.collection);
      s.name := DisplayName(collection, s.name, s.keyword);
    }

    /**
     `process_snippet` on the file `f` of the directory `dir`: read its
     snippet, tweak it, and delete or rewrite the file. A kept snippet is a
     new object, appended to both indexes and holding the tweaked values;
     a file that raises leaves the indexes as they were. `kept` is what the
     visit indexed: that snippet, or nothing.
     */
    method ProcessSnippet(dir: map<string, Json>, f: string, collection: string)
      returns (r: Result<map<string, Json>, RunError>, ghost added: seq<Snippet>, ghost kept: seq<Indexed>)
      requires Valid()
      requires f in dir
      modifies this
      ensures Valid()
      ensures Visit(dir, f, collection) == Returned(r, kept)
      ensures r.Failure? ==>
        && added == [] && keywordEntries == old(keywordEntries) && nameEntries == old(nameEntries)
      ensures r.Success? ==>
        && Extended(old(keywordEntries), old(nameEntries), kept, added)
        && fresh(Objects(added))
    {
      kept := [];
      var parsed := FromJson(dir[f], collection);
      VisitCases(dir, f, collection);
      if parsed.Failure? {
        return Failure(Malformed(parsed.error)), [], [];
      }
      var tweaked;
      tweaked, added := ProcessRecord(parsed.value);
      kept := IndexedOf(TweakRecord(parsed.value));
      match tweaked
      case Failure(e) =>
        r := Failure(BadRule(e));
      case Success(None) =>
        r := Success(dir - {f});
      case Success(Some(t)) =>
        r := Success(dir[f := ToJson(t)]);
    }

    /**
     One turn of the loop of `extract_and_process_snippets`: `process_snippet`
     on the next file, which leaves the objects `objs` indexed by the earlier
     turns holding the values `xs` they held.
     */
    method ProcessNext(dir: map<string, Json>, f: string, collection: string, ghost xs: seq<Indexed>, ghost objs: seq<Snippet>)
      returns (r: Result<map<string, Json>, RunError>, ghost added: seq<Snippet>, ghost kept: seq<Indexed>)
      requires Valid()
      requires f in dir
      requires Holding(objs, xs)
      modifies this
      ensures Valid()
      ensures Visit(dir, f, collection) == Returned(r, kept)
      ensures r.Success? ==>
        && Extended(old(keywordEntries), old(nameEntries), kept, added)
        && fresh(Objects(added))
      ensures Holding(objs, xs)
    {
      r, added, kept := ProcessSnippet(dir, f, collection);
    }

    /**
     The middle of `process_snippet`: a new object for the parsed record,
     tweaked and, when kept, added to the indexes; the result is the value
     to write back, `None` when the file is to be deleted.
     */
    method ProcessRecord(record: Record) returns (r: Result<Option<Record>, ActionError>, ghost added: seq<Snippet>)
      requires Valid()
      modifies this
      ensures Valid()
      ensures var o := TweakRecord(record);
        && (o.Failed? ==> r == Failure(o.error))
        && (o.Removed? ==> r == Success(None))
        && (o.Kept? ==> r == Success(Some(o.tweaked)))
        && Extended(old(keywordEntries), old(nameEntries), IndexedOf(o), added)
        && fresh(Objects(added))
    {
      ghost var o := TweakRecord(record);
      var snippet := new Snippet(record);
      var tweaked := TweakSnippet(snippet);
      match tweaked
      case Failure(e) =>
        EmptyLogs();
        r, added := Failure(e), [];
      case Success(None) =>
        EmptyLogs();
        r, added := Success(None), [];
      case Success(Some(t)) =>
        SingleLogs(Indexed(o.keyword, o.name, o.tweaked), snippet);
        r, added := Success(Some(t.Value())), [snippet];
    }

    /**
     The loop of `extract_and_process_snippets` over the collection's JSON
     files (`files` lists each of them once): each is deleted or rewritten in
     `dir`, and the indexes gain one new object per kept snippet, in file
     order, holding that snippet's tweaked values.
     */
    method ProcessCollection(dir: map<string, Json>, files: seq<string>, collection: string)
      returns (r: Result<map<string, Json>, RunError>, ghost added: seq<Snippet>)
      requires Valid()
      requires Pending(dir, files, 0)
      modifies this
      ensures Valid()
      ensures ProcessFrom(Batch(dir, []), files, 0, collection).Failure? ==>
        r == Failure(ProcessFrom(Batch(dir, []), files, 0, collection).error)
      ensures ProcessFrom(Batch(dir, []), files, 0, collection).Success? ==>
        var run := ProcessFrom(Batch(dir, []), files, 0, collection).value;
        && r == Success(run.dir)
        && Extended(old(keywordEntries), old(nameEntries), run.indexed, added)
    {
      ghost var keywords0, names0 := keywordEntries, nameEntries;
      ghost var b := Batch(dir, []);
      ghost var run := ProcessFrom(b, files, 0, collection);
      added := [];
      var current := dir;
      var i := 0;
      EmptyLogs();
      while i < |files|
        invariant 0 <= i <= |files|
        invariant Valid()
        invariant current == b.dir
        invariant Pending(current, files, i)
        invariant ProcessFrom(b, files, i, collection) == run
        invariant Extended(keywords0, names0, b.indexed, added)
        decreases |files| - i
      {
        ProcessFromUnfold(b, files, i, collection);
        var next;
        ghost var more, kept;
        ghost var k1, n1 := keywordEntries, nameEntries;
        next, more, kept := ProcessNext(current, files[i], collection, b.indexed, added);
        if next.Failure? {
          return Failure(next.error), added;
        }
        LogsStep(keywords0, names0, k1, n1, keywordEntries, nameEntries, b.indexed, added, kept, more);
        HoldingConcat(added, b.indexed, more, kept);
        current := next.value;
        b, added := Batch(current, b.indexed + kept), added + more;
        i := i + 1;
      }
      return Success(current), added;
    }
  }
}

/**
 The merge step of `collect_and_compress_to_new_single_snippetfile`: every
 JSON file of every processed collection is moved into one final
 directory, and a file name that is already there raises `ValueError`,
 leaving the files moved so far in place. Only the names are modelled: the
 final directory is a map from file name to the collection it came from.
 */
module Merge {
  import opened Wrappers

  /** A processed collection: its directory name and the names of its `*.json` files, in listing order. */
  datatype Collection = Collection(dir: string, files: seq<string>)

  /** One `snippet.rename(destination)`: the file `file` of the directory `dir`. */
  datatype Move = Move(dir: string, file: string)

  /**
   The final directory after the moves made so far, and the move that
   raised, if one did (its path is the `ValueError`'s argument).
   */
  datatype MergeState = MergeState(final: map<string, string>, collision: Option<Move>)

  /** The moves of one collection, in the order its files are listed. */
  function MovesOf(c: Collection): (ms: seq<Move>)
    ensures |ms| == |c.files|
    ensures forall k :: 0 <= k < |ms| ==> ms[k] == Move(c.dir, c.files[k])
  {
    seq(|c.files|, k requires 0 <= k < |c.files| => Move(c.dir, c.files[k]))
  }

  /** The moves of all collections, collection after collection. */
  function AllMoves(cs: seq<Collection>): seq<Move>
  {
    if |cs| == 0 then [] else AllMoves(cs[..|cs| - 1]) + MovesOf(cs[|cs| - 1])
  }

  /**
   The reference semantics: the moves are made in order, each into the
   final directory unless its name is already there; the first clash stops
   the run, and nothing after it is moved.
   */
  function MoveAll(moves: seq<Move>): MergeState
  {
    if |moves| == 0 then MergeState(map[], None)
    else Step(MoveAll(moves[..|moves| - 1]), moves[|moves| - 1])
  }

  /** One turn of the inner loop: `destination.exists()` raises, otherwise the file is moved in. */
  function Step(st: MergeState, m: Move): (next: MergeState)
    ensures st.collision.Some? ==> next == st
    ensures st.collision.None? && m.file in st.final ==> next == MergeState(st.final, Some(m))
    ensures st.collision.None? && m.file !in st.final ==> next == MergeState(st.final[m.file := m.dir], None)
  {
    if st.collision.Some? then st
    else if m.file in st.final then MergeState(st.final, Some(m))
    else MergeState(st.final[m.file := m.dir], None)
  }

  /**
   A move never overwrites: every file already in the final directory stays
   there with its origin, the only name that can be added is the moved
   file's, and once no error has been raised the moved file is in place
   afterwards, from its own directory unless its name was taken.
   */
  lemma StepNeverOverwrites(st: MergeState, m: Move)
    ensures var next := Step(st, m);
      && (forall n :: n in st.final ==> n in next.final && next.final[n] == st.final[n])
      && next.final.Keys <= st.final.Keys + {m.file}
      && (st.collision.None? ==> m.file in next.final)
      && (st.collision.None? && m.file !in st.final ==> next.final[m.file] == m.dir && next.collision.None?)
  {
  }

  /** No two moves bring a file of the same name. */
  predicate NoRepeats(moves: seq<Move>)
  {
    forall i, j :: 0 <= i < j < |moves| ==> moves[i].file != moves[j].file
  }

  /** The names of the moved files, in order. */
  function Files(moves: seq<Move>): (fs: seq<string>)
    ensures |fs| == |moves|
    ensures forall i :: 0 <= i < |moves| ==> fs[i] == moves[i].file
  {
    seq(|moves|, i requires 0 <= i < |moves| => moves[i].file)
  }

  /** `final` holds exactly the files of `moves`, each recorded with the directory it came from. */
  ghost predicate Placed(moves: seq<Move>, final: map<string, string>)
  {
    && (forall name :: name in final <==> name in Files(moves))
    && (forall i :: 0 <= i < |moves| ==> moves[i].file in final && final[moves[i].file] == moves[i].dir)
  }

  /** The moves repeat no name exactly when the ones before the last do not and the last name is new. */
  lemma RepeatsAtEnd(moves: seq<Move>)
    requires |moves| > 0
    ensures var init := moves[..|moves| - 1];
      NoRepeats(moves) <==> NoRepeats(init) && moves[|moves| - 1].file !in Files(init)
  {
    var init := moves[..|moves| - 1];
    if moves[|moves| - 1].file in Files(init) {
      var i :| 0 <= i < |init| && Files(init)[i] == moves[|moves| - 1].file;
      assert moves[i].file == moves[|moves| - 1].file;
    }
  }

  /**
   A merge that does not raise repeats no name, and leaves every file in
   the final directory, from the one collection that had it, and nothing
   else: as many files as were moved.
   */
  lemma {:induction false} MergedFiles(moves: seq<Move>)
    requires MoveAll(moves).collision.None?
    ensures NoRepeats(moves)
    ensures Placed(moves, MoveAll(moves).final)
    ensures |MoveAll(moves).final| == |moves|
    decreases |moves|
  {
    if |moves| > 0 {
      var init, m := moves[..|moves| - 1], moves[|moves| - 1];
      var st := MoveAll(init);
      assert st.collision.None?;
      MergedFiles(init);
      assert m.file !in st.final;
      RepeatsAtEnd(moves);
      assert Files(moves) == Files(init) + [m.file];
      forall i | 0 <= i < |moves| - 1
        ensures moves[i].file in MoveAll(moves).final && MoveAll(moves).final[moves[i].file] == moves[i].dir
      {
        assert moves[i] == init[i];
        assert Files(init)[i] == moves[i].file;
      }
    }
  }

  /** The merge succeeds exactly when no file name repeats across the collections. */
  lemma {:induction false} MergeSucceeds(moves: seq<Move>)
    ensures MoveAll(moves).collision.None? <==> NoRepeats(moves)
    decreases |moves|
  {
    if MoveAll(moves).collision.None? {
      MergedFiles(moves);
    } else if |moves| > 0 && NoRepeats(moves) {
      var init := moves[..|moves| - 1];
      RepeatsAtEnd(moves);
      MergeSucceeds(init);
      MergedFiles(init);
    }
  }

  /** A file name is among the moves exactly when some collection lists it. */
  lemma {:induction false} FilesOfAllMoves(cs: seq<Collection>, name: string)
    ensures name in Files(AllMoves(cs)) <==> exists c :: 0 <= c < |cs| && name in cs[c].files
    decreases |cs|
  {
    if |cs| > 0 {
      var init, last := cs[..|cs| - 1], cs[|cs| - 1];
      FilesOfAllMoves(init, name);
      assert Files(AllMoves(cs)) == Files(AllMoves(init)) + last.files;
      if exists c :: 0 <= c < |cs| && name in cs[c].files {
        var c :| 0 <= c < |cs| && name in cs[c].files;
        if c < |cs| - 1 {
          assert init[c] == cs[c];
        }
      }
      if exists c :: 0 <= c < |init| && name in init[c].files {
        var c :| 0 <= c < |init| && name in init[c].files;
        assert cs[c] == init[c];
      }
    }
  }

  /**
   Over whole collections: the merge succeeds exactly when no file name is
   listed twice, and the final directory then holds exactly the union of
   the collections' files.
   */
  lemma MergeUnion(cs: seq<Collection>)
    ensures var st := MoveAll(AllMoves(cs));
      && (st.collision.None? <==> NoRepeats(AllMoves(cs)))
      && (st.collision.None? ==>
            forall name :: name in st.final <==> exists c :: 0 <= c < |cs| && name in cs[c].files)
  {
    var st := MoveAll(AllMoves(cs));
    MergeSucceeds(AllMoves(cs));
    if st.collision.None? {
      MergedFiles(AllMoves(cs));
      forall name ensures name in st.final <==> exists c :: 0 <= c < |cs| && name in cs[c].files {
        FilesOfAllMoves(cs, name);
      }
    }
  }

  /**
   When the merge raises, the move that raised is the first one whose name
   was already taken: the files before it have distinct names and are all
   in place, the clashing name among them, and nothing was overwritten.
   */
  lemma {:induction false} MergeStopsAtFirstClash(moves: seq<Move>)
    requires MoveAll(moves).collision.Some?
    ensures var st := MoveAll(moves);
      exists j :: 0 <= j < |moves| && moves[j] == st.collision.value
        && NoRepeats(moves[..j])
        && Placed(moves[..j], st.final)
        && st.collision.value.file in st.final
        && st.final == MoveAll(moves[..j]).final
    decreases |moves|
  {
    var init, m := moves[..|moves| - 1], moves[|moves| - 1];
    var st := MoveAll(init);
    if st.collision.Some? {
      MergeStopsAtFirstClash(init);
      var j :| 0 <= j < |init| && init[j] == st.collision.value
        && NoRepeats(init[..j]) && Placed(init[..j], st.final)
        && st.collision.value.file in st.final && st.final == MoveAll(init[..j]).final;
      assert init[..j] == moves[..j];
    } else {
      MergedFiles(init);
      assert moves[..|moves| - 1] == init;
    }
  }

  /** Once a move has raised, later moves change nothing. */
  lemma {:induction false} MoveAllStops(moves: seq<Move>, rest: seq<Move>)
    requires MoveAll(moves).collision.Some?
    ensures MoveAll(moves + rest) == MoveAll(moves)
    decreases |rest|
  {
    if |rest| > 0 {
      var init := rest[..|rest| - 1];
      MoveAllStops(moves, init);
      assert (moves + rest)[..|moves + rest| - 1] == moves + init;
      assert MoveAll(moves + rest) == Step(MoveAll(moves + init), rest[|rest| - 1]);
    } else {
      assert moves + rest == moves;
    }
  }

  /** The moves of the collections up to `c`, then the first `j` files of collection `c`. */
  lemma MovesSoFar(cs: seq<Collection>, c: nat, j: nat)
    requires c < |cs| && j < |cs[c].files|
    ensures AllMoves(cs[..c]) + MovesOf(Collection(cs[c].dir, cs[c].files[..j + 1]))
         == (AllMoves(cs[..c]) + MovesOf(Collection(cs[c].dir, cs[c].files[..j]))) + [Move(cs[c].dir, cs[c].files[j])]
  {
  }

  /** A collection whose files have all been moved closes a turn of the outer loop. */
  lemma CollectionDone(cs: seq<Collection>, c: nat)
    requires c < |cs|
    ensures AllMoves(cs[..c + 1]) == AllMoves(cs[..c]) + MovesOf(Collection(cs[c].dir, cs[c].files[..|cs[c].files|]))
  {
    assert cs[..c + 1][..c] == cs[..c];
    assert cs[c].files[..|cs[c].files|] == cs[c].files;
  }

  /** Making the moves one after another. */
  lemma MoveAllSnoc(moves: seq<Move>, m: Move)
    ensures MoveAll(moves + [m]) == Step(MoveAll(moves), m)
  {
    assert (moves + [m])[..|moves|] == moves;
  }

  /**
   The merge loop itself: for each collection, for each of its files, raise
   if the destination exists, otherwise move the file in. It returns the
   final directory as it stands when the loop ends or raises.
   */
  method MergeCollections(cs: seq<Collection>) returns (final: map<string, string>, collision: Option<Move>)
    ensures MergeState(final, collision) == MoveAll(AllMoves(cs))
  {
    final := map[];
    var c := 0;
    while c < |cs|
      invariant 0 <= c <= |cs|
      invariant MoveAll(AllMoves(cs[..c])) == MergeState(final, None)
    {
      var files := cs[c].files;
      var j := 0;
      assert MovesOf(Collection(cs[c].dir, files[..0])) == [];
      assert AllMoves(cs[..c]) + [] == AllMoves(cs[..c]);
      while j < |files|
        invariant 0 <= j <= |files|
        invariant MoveAll(AllMoves(cs[..c]) + MovesOf(Collection(cs[c].dir, files[..j]))) == MergeState(final, None)
      {
        var name := files[j];
        MovesSoFar(cs, c, j);
        MoveAllSnoc(AllMoves(cs[..c]) + MovesOf(Collection(cs[c].dir, files[..j])), Move(cs[c].dir, name));
        if name in final {
          collision := Some(Move(cs[c].dir, name));
          ClashIsFinal(cs, c, j, final);
          return;
        }
        final := final[name := cs[c].dir];
        j := j + 1;
      }
      CollectionDone(cs, c);
      c := c + 1;
    }
    assert cs[..c] == cs;
    collision := None;
  }

  /** A clash on file `j` of collection `c` is the outcome of the whole merge. */
  lemma ClashIsFinal(cs: seq<Collection>, c: nat, j: nat, final: map<string, string>)
    requires c < |cs| && j < |cs[c].files|
    requires MoveAll(AllMoves(cs[..c]) + MovesOf(Collection(cs[c].dir, cs[c].files[..j + 1])))
          == MergeState(final, Some(Move(cs[c].dir, cs[c].files[j])))
    ensures MoveAll(AllMoves(cs)) == MergeState(final, Some(Move(cs[c].dir, cs[c].files[j])))
  {
    var done := AllMoves(cs[..c]) + MovesOf(Collection(cs[c].dir, cs[c].files[..j + 1]));
    var rest := MovesOf(Collection(cs[c].dir, cs[c].files[j + 1..])) + AllMovesFrom(cs, c + 1);
    AllMovesSplit(cs, c, j + 1);
    MoveAllStops(done, rest);
  }

  /** The moves of the collections from position `c` on. */
  function AllMovesFrom(cs: seq<Collection>, c: nat): seq<Move>
    requires c <= |cs|
    decreases |cs| - c
  {
    if c == |cs| then [] else MovesOf(cs[c]) + AllMovesFrom(cs, c + 1)
  }

  /** All moves, split inside collection `c` after its first `j` files. */
  lemma AllMovesSplit(cs: seq<Collection>, c: nat, j: nat)
    requires c < |cs| && j <= |cs[c].files|
    ensures AllMoves(cs) == (AllMoves(cs[..c]) + MovesOf(Collection(cs[c].dir, cs[c].files[..j])))
                            + (MovesOf(Collection(cs[c].dir, cs[c].files[j..])) + AllMovesFrom(cs, c + 1))
  {
    AllMovesConcat(cs, c);
    MovesOfSplit(cs[c], j);
    RegroupMoves(AllMoves(cs[..c]), MovesOf(Collection(cs[c].dir, cs[c].files[..j])),
            MovesOf(Collection(cs[c].dir, cs[c].files[j..])), AllMovesFrom(cs, c + 1));
  }

  lemma RegroupMoves(a: seq<Move>, b1: seq<Move>, b2: seq<Move>, rest: seq<Move>)
    ensures a + ((b1 + b2) + rest) == (a + b1) + (b2 + rest)
  {
  }

  /** The moves of a collection, split after its first `j` files. */
  lemma MovesOfSplit(c: Collection, j: nat)
    requires j <= |c.files|
    ensures MovesOf(c) == MovesOf(Collection(c.dir, c.files[..j])) + MovesOf(Collection(c.dir, c.files[j..]))
  {
  }

  /** All moves are those before collection `c` followed by those from it on. */
  lemma {:induction false} AllMovesConcat(cs: seq<Collection>, c: nat)
    requires c <= |cs|
    ensures AllMoves(cs) == AllMoves(cs[..c]) + AllMovesFrom(cs, c)
    decreases |cs| - c
  {
    if c == |cs| {
      assert cs[..c] == cs;
    } else {
      AllMovesConcat(cs, c + 1);
      assert cs[..c + 1][..c] == cs[..c];
    }
  }
}

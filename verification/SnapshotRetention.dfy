/**
 * Creating and pruning paired snapshots, over the same file map and answers.
 */
module SnapshotRetention {
  import opened Wrappers
  import opened Snapshots

  // ---- Create ----

  function BackUpOne(w: World, o: Answers, g: Name, role: Role, source: Content): Effect {
    var written := WriteFile(w, o, SnapshotTmp(g, role), Some(source));
    if !written.signal.Fine? then written
    else
      var checked := Check(written.world, o, SnapshotTmp(g, role));
      Effect(checked.world, if checked.signal.Fine? && !checked.sound then Fatal else checked.signal)
  }

  function BackUpBoth(w: World, o: Answers, g: Name, main: Content, relay: Content): Effect {
    var first := BackUpOne(w, o, g, Main, main);
    if !first.signal.Fine? then first else BackUpOne(first.world, o, g, Relay, relay)
  }

  function NameBoth(w: World, o: Answers, g: Name): Effect {
    var first := Move(w, o, SnapshotTmp(g, Main), Snapshot(g, Main));
    if !first.signal.Fine? then first else Move(first.world, o, SnapshotTmp(g, Relay), Snapshot(g, Relay))
  }

  /** The marker is placed last; an interrupt may still strike before the path is returned. */
  function Publish(w: World, o: Answers, g: Name): Effect {
    var written := WriteFile(w, o, MarkerTmp(g), Some(Manifest(g)));
    if !written.signal.Fine? then written
    else
      var moved := Move(written.world, o, MarkerTmp(g), Marker(g));
      if !moved.signal.Fine? then moved
      else Effect(After(moved.world, moved.world.files), if o(moved.world.clock).IoError? then Fine else o(moved.world.clock))
  }

  function RemoveAll(w: World, o: Answers, paths: seq<Path>): Effect
    decreases |paths|
  {
    if paths == [] then Effect(w, Fine)
    else
      var first := Remove(w, o, paths[0]);
      if !first.signal.Fine? then first else RemoveAll(first.world, o, paths[1..])
  }

  function Leftovers(g: Name): seq<Path> {
    [SnapshotTmp(g, Main), SnapshotTmp(g, Relay), Snapshot(g, Main), Snapshot(g, Relay), MarkerTmp(g)]
  }

  function CreateBody(w: World, o: Answers, g: Name, main: Content, relay: Content): Effect {
    var backed := BackUpBoth(w, o, g, main, relay);
    if !backed.signal.Fine? then backed
    else
      var named := NameBoth(backed.world, o, g);
      if !named.signal.Fine? then named else Publish(named.world, o, g)
  }

  /** `create_snapshot`: any exception removes the files of this generation and is raised again. */
  function Create(w: World, o: Answers, g: Name, main: Content, relay: Content): Effect {
    var done := CreateBody(w, o, g, main, relay);
    if done.signal.Fine? || done.signal.Crashed? then done
    else
      var cleaned := RemoveAll(done.world, o, Leftovers(g));
      Effect(cleaned.world, if cleaned.signal.Fine? then done.signal else cleaned.signal)
  }

  predicate OfGeneration(p: Path, g: Name) {
    p in Leftovers(g) || p == Marker(g)
  }

  /** Only files of generation `g` differ. */
  ghost predicate OnlyGeneration(a: Files, b: Files, g: Name) {
    forall p :: !OfGeneration(p, g) ==> SameAt(a, b, p)
  }

  /** Removing a list of files leaves every file as it is or, if listed, absent. */
  lemma {:induction false} RemovingOnlyRemoves(w: World, o: Answers, paths: seq<Path>)
    ensures var e := RemoveAll(w, o, paths);
      forall p :: SameAt(w.files, e.world.files, p) || (p in paths && p !in e.world.files)
    decreases |paths|
  {
    if paths != [] {
      var first := Remove(w, o, paths[0]);
      if first.signal.Fine? {
        RemovingOnlyRemoves(first.world, o, paths[1..]);
        var e := RemoveAll(w, o, paths);
        forall p
          ensures SameAt(w.files, e.world.files, p) || (p in paths && p !in e.world.files)
        {
          assert SameAt(first.world.files, e.world.files, p) || (p in paths[1..] && p !in e.world.files);
        }
      }
    }
  }

  lemma BackingUpOneTouchesOnly(w: World, o: Answers, g: Name, role: Role, source: Content)
    ensures var e := BackUpOne(w, o, g, role, source);
      && (forall p :: p != SnapshotTmp(g, role) ==> SameAt(w.files, e.world.files, p))
      && (e.signal.Fine? ==>
            SnapshotTmp(g, role) in e.world.files && e.world.files[SnapshotTmp(g, role)] == source
            && Sound(e.world.files, SnapshotTmp(g, role)))
  {
  }

  lemma BackingUpTouchesOnly(w: World, o: Answers, g: Name, main: Content, relay: Content)
    ensures var e := BackUpBoth(w, o, g, main, relay);
      && OnlyGeneration(w.files, e.world.files, g)
      && SameAt(w.files, e.world.files, Snapshot(g, Main)) && SameAt(w.files, e.world.files, Snapshot(g, Relay))
      && SameAt(w.files, e.world.files, Marker(g))
      && (e.signal.Fine? ==>
            && SnapshotTmp(g, Main) in e.world.files && e.world.files[SnapshotTmp(g, Main)] == main && Sound(e.world.files, SnapshotTmp(g, Main))
            && SnapshotTmp(g, Relay) in e.world.files && e.world.files[SnapshotTmp(g, Relay)] == relay && Sound(e.world.files, SnapshotTmp(g, Relay)))
  {
    var first := BackUpOne(w, o, g, Main, main);
    BackingUpOneTouchesOnly(w, o, g, Main, main);
    if first.signal.Fine? {
      BackingUpOneTouchesOnly(first.world, o, g, Relay, relay);
      var e := BackUpOne(first.world, o, g, Relay, relay);
      assert SameAt(first.world.files, e.world.files, SnapshotTmp(g, Main));
    }
  }

  lemma NamingTouchesOnly(w: World, o: Answers, g: Name)
    requires Sound(w.files, SnapshotTmp(g, Main)) && Sound(w.files, SnapshotTmp(g, Relay))
    ensures var e := NameBoth(w, o, g);
      && OnlyGeneration(w.files, e.world.files, g) && SameAt(w.files, e.world.files, Marker(g))
      && (e.signal.Fine? ==>
            && Sound(e.world.files, Snapshot(g, Main)) && e.world.files[Snapshot(g, Main)] == w.files[SnapshotTmp(g, Main)]
            && Sound(e.world.files, Snapshot(g, Relay)) && e.world.files[Snapshot(g, Relay)] == w.files[SnapshotTmp(g, Relay)])
  {
  }

  lemma PublishingTouchesOnly(w: World, o: Answers, g: Name)
    ensures var e := Publish(w, o, g);
      && OnlyGeneration(w.files, e.world.files, g)
      && SameAt(w.files, e.world.files, Snapshot(g, Main)) && SameAt(w.files, e.world.files, Snapshot(g, Relay))
      && (SameAt(w.files, e.world.files, Marker(g)) || (Marker(g) in e.world.files && e.world.files[Marker(g)] == Manifest(g)))
      && (e.signal.Fine? ==> Marker(g) in e.world.files && e.world.files[Marker(g)] == Manifest(g))
  {
  }

  /** Before the clean-up: the marker appears only over its two sound files, which are the given contents. */
  lemma BodyPublishesLast(w: World, o: Answers, g: Name, main: Content, relay: Content)
    requires Marker(g) !in w.files
    ensures var e := CreateBody(w, o, g, main, relay);
      && OnlyGeneration(w.files, e.world.files, g)
      && (Marker(g) in e.world.files ==>
            Restorable(e.world.files, g) && PairContent(e.world.files, g, Main) == main && PairContent(e.world.files, g, Relay) == relay)
      && (e.signal.Fine? ==> Marker(g) in e.world.files)
  {
    BackingUpTouchesOnly(w, o, g, main, relay);
    var backed := BackUpBoth(w, o, g, main, relay);
    if backed.signal.Fine? {
      NamingTouchesOnly(backed.world, o, g);
      var named := NameBoth(backed.world, o, g);
      if named.signal.Fine? { PublishingTouchesOnly(named.world, o, g); }
    }
  }

  lemma CreateTouchesOnly(w: World, o: Answers, g: Name, main: Content, relay: Content)
    requires Marker(g) !in w.files
    ensures OnlyGeneration(w.files, Create(w, o, g, main, relay).world.files, g)
  {
    BodyPublishesLast(w, o, g, main, relay);
    var done := CreateBody(w, o, g, main, relay).world;
    var files := Create(w, o, g, main, relay).world.files;
    RemovingOnlyRemoves(done, o, Leftovers(g));
    forall p | !OfGeneration(p, g)
      ensures SameAt(w.files, files, p)
    {
      assert SameAt(w.files, done.files, p);
      assert SameAt(done.files, RemoveAll(done, o, Leftovers(g)).world.files, p);
    }
  }

  /** No file of generation `g` exists yet: snapshot names come from a microsecond clock. */
  ghost predicate Unused(files: Files, g: Name) {
    forall p :: OfGeneration(p, g) ==> p !in files
  }

  /**
   * However a create ends, every other restorable generation stays restorable with
   * its contents, nothing else becomes restorable, and a create that succeeds makes
   * its own generation restorable with the backed-up contents.
   */
  lemma CreateIsAllOrNothing(w: World, o: Answers, g: Name, main: Content, relay: Content)
    requires Unused(w.files, g)
    ensures var e := Create(w, o, g, main, relay);
      && (forall n :: Restorable(w.files, n) ==>
            Restorable(e.world.files, n) && forall r :: PairContent(e.world.files, n, r) == PairContent(w.files, n, r))
      && (e.signal.Fine? ==>
            Restorable(e.world.files, g) && PairContent(e.world.files, g, Main) == main && PairContent(e.world.files, g, Relay) == relay)
      && (forall n :: Restorable(e.world.files, n) && !Restorable(w.files, n) ==> e.world.files[Marker(n)].generation == g)
  {
    assert OfGeneration(Marker(g), g) && OfGeneration(Snapshot(g, Main), g);
    CreateTouchesOnly(w, o, g, main, relay);
    if Create(w, o, g, main, relay).signal.Fine? { CreateSucceedsRestorable(w, o, g, main, relay); }
    var files := Create(w, o, g, main, relay).world.files;
    forall n | Restorable(w.files, n)
      ensures Restorable(files, n) && forall r :: PairContent(files, n, r) == PairContent(w.files, n, r)
    {
      OthersStayRestorable(w.files, files, g, n);
    }
    forall n | Restorable(files, n) && !Restorable(w.files, n)
      ensures files[Marker(n)].generation == g
    {
      NothingElseBecomesRestorable(w, o, g, main, relay, n);
    }
  }

  lemma CreateSucceedsRestorable(w: World, o: Answers, g: Name, main: Content, relay: Content)
    requires Marker(g) !in w.files && Create(w, o, g, main, relay).signal.Fine?
    ensures var files := Create(w, o, g, main, relay).world.files;
      Restorable(files, g) && PairContent(files, g, Main) == main && PairContent(files, g, Relay) == relay
  {
    BodyPublishesLast(w, o, g, main, relay);
  }

  lemma NothingElseBecomesRestorable(w: World, o: Answers, g: Name, main: Content, relay: Content, n: Name)
    requires Unused(w.files, g)
    requires var files := Create(w, o, g, main, relay).world.files; Restorable(files, n) && !Restorable(w.files, n)
    ensures Create(w, o, g, main, relay).world.files[Marker(n)].generation == g
  {
    assert OfGeneration(Marker(g), g);
    var files := Create(w, o, g, main, relay).world.files;
    CreateTouchesOnly(w, o, g, main, relay);
    var h := files[Marker(n)].generation;
    if n == g {
      CreateMarksItself(w, o, g, main, relay);
    } else if h != g {
      RestorableBefore(w.files, files, g, n);
    }
  }

  lemma RestorableBefore(a: Files, b: Files, g: Name, n: Name)
    requires OnlyGeneration(a, b, g) && Restorable(b, n) && n != g && b[Marker(n)].generation != g
    ensures Restorable(a, n)
  {
    var h := b[Marker(n)].generation;
    assert SameAt(a, b, Marker(n)) && SameAt(a, b, Snapshot(h, Main)) && SameAt(a, b, Snapshot(h, Relay));
  }

  lemma CreateMarksItself(w: World, o: Answers, g: Name, main: Content, relay: Content)
    requires Marker(g) !in w.files
    ensures var files := Create(w, o, g, main, relay).world.files; Marker(g) in files ==> files[Marker(g)] == Manifest(g)
  {
    CreateBodyMarks(w, o, g, main, relay);
    var done := CreateBody(w, o, g, main, relay).world;
    RemovingOnlyRemoves(done, o, Leftovers(g));
    assert SameAt(done.files, RemoveAll(done, o, Leftovers(g)).world.files, Marker(g));
  }

  lemma OthersStayRestorable(a: Files, b: Files, g: Name, n: Name)
    requires OnlyGeneration(a, b, g) && Restorable(a, n) && Snapshot(g, Main) !in a && Marker(g) !in a
    ensures Restorable(b, n) && forall r :: PairContent(b, n, r) == PairContent(a, n, r)
  {
    var h := a[Marker(n)].generation;
    assert SameAt(a, b, Marker(n)) && SameAt(a, b, Snapshot(h, Main)) && SameAt(a, b, Snapshot(h, Relay));
  }

  predicate SoundContent(c: Content) {
    c.Database? && c.sound
  }

  lemma BackingUpTakesFour(w: World, o: Answers, g: Name, main: Content, relay: Content)
    ensures var e := BackUpBoth(w, o, g, main, relay);
      && (e.signal.Fine? <==> Answered(o, w.clock, w.clock + 4, Fine) && SoundContent(main) && SoundContent(relay))
      && (e.signal.Fine? ==> e.world.clock == w.clock + 4)
  {
  }

  lemma NamingTakesTwo(w: World, o: Answers, g: Name)
    requires Sound(w.files, SnapshotTmp(g, Main)) && Sound(w.files, SnapshotTmp(g, Relay))
    ensures var e := NameBoth(w, o, g);
      && (e.signal.Fine? <==> o(w.clock).Fine? && o(w.clock + 1).Fine?)
      && (e.signal.Fine? ==> e.world.clock == w.clock + 2)
  {
  }

  lemma PublishingTakesThree(w: World, o: Answers, g: Name)
    requires Marker(g) !in w.files
    ensures var e := Publish(w, o, g);
      && (Marker(g) in e.world.files <==> o(w.clock).Fine? && o(w.clock + 1).Fine?)
      && (Marker(g) in e.world.files ==> e.world.clock == w.clock + 3 && e.signal == if o(w.clock + 2).IoError? then Fine else o(w.clock + 2))
  {
  }

  lemma BodyMarksAfterEight(w: World, o: Answers, g: Name, main: Content, relay: Content)
    requires Marker(g) !in w.files
    ensures var e := CreateBody(w, o, g, main, relay);
      && (Marker(g) in e.world.files <==> Answered(o, w.clock, w.clock + 8, Fine) && SoundContent(main) && SoundContent(relay))
      && (Marker(g) in e.world.files ==> e.world.clock == w.clock + 9 && e.signal == if o(w.clock + 8).IoError? then Fine else o(w.clock + 8))
  {
    BackingUpTakesFour(w, o, g, main, relay);
    BackingUpTouchesOnly(w, o, g, main, relay);
    var backed := BackUpBoth(w, o, g, main, relay);
    if backed.signal.Fine? {
      NamingTakesTwo(backed.world, o, g);
      NamingTouchesOnly(backed.world, o, g);
      var named := NameBoth(backed.world, o, g);
      if named.signal.Fine? { PublishingTakesThree(named.world, o, g); }
    }
  }

  /**
   * A marker without its files is left exactly when an interrupt strikes after the
   * marker was placed and before the path is returned, and the clean-up reaches the
   * main file.
   */
  lemma DanglingMarkerExactly(w: World, o: Answers, g: Name, main: Content, relay: Content)
    requires Unused(w.files, g)
    ensures var e := Create(w, o, g, main, relay);
      (Marker(g) in e.world.files && !Restorable(e.world.files, g))
      <==> (SoundContent(main) && SoundContent(relay) && Answered(o, w.clock, w.clock + 8, Fine)
            && o(w.clock + 8).Fatal? && Answered(o, w.clock + 9, w.clock + 12, Fine))
  {
    assert OfGeneration(Marker(g), g);
    var body := CreateBody(w, o, g, main, relay);
    BodyMarksAfterEight(w, o, g, main, relay);
    BodyPublishesLast(w, o, g, main, relay);
    CreateBodyMarks(w, o, g, main, relay);
    if Marker(g) in body.world.files && body.signal.Fatal? {
      CleaningUnmakes(body.world, o, g);
    } else if !body.signal.Fine? && !body.signal.Crashed? {
      RemovingOnlyRemoves(body.world, o, Leftovers(g));
      assert Marker(g) !in Leftovers(g);
      assert SameAt(body.world.files, RemoveAll(body.world, o, Leftovers(g)).world.files, Marker(g));
    }
  }

  /** A listed file is gone exactly when every removal up to its own succeeded. */
  lemma {:induction false} RemovedExactly(w: World, o: Answers, paths: seq<Path>, i: nat)
    requires i < |paths| && paths[i] in w.files && forall j :: 0 <= j < |paths| && j != i ==> paths[j] != paths[i]
    ensures paths[i] !in RemoveAll(w, o, paths).world.files <==> Answered(o, w.clock, w.clock + i + 1, Fine)
    decreases |paths|
  {
    var first := Remove(w, o, paths[0]);
    if first.signal.Fine? {
      if i == 0 {
        RemovingOnlyRemoves(first.world, o, paths[1..]);
        assert SameAt(first.world.files, RemoveAll(first.world, o, paths[1..]).world.files, paths[0]);
      } else {
        RemovedExactly(first.world, o, paths[1..], i - 1);
      }
    }
  }

  lemma CleaningUnmakes(w: World, o: Answers, g: Name)
    requires Restorable(w.files, g) && w.files[Marker(g)] == Manifest(g)
    ensures var files := RemoveAll(w, o, Leftovers(g)).world.files;
      Marker(g) in files && (!Restorable(files, g) <==> Answered(o, w.clock, w.clock + 3, Fine))
  {
    var paths := Leftovers(g);
    var files := RemoveAll(w, o, paths).world.files;
    RemovedExactly(w, o, paths, 2);
    RemovedExactly(w, o, paths, 3);
    RemovingOnlyRemoves(w, o, paths);
    assert Marker(g) !in paths;
    assert SameAt(w.files, files, Marker(g));
    assert SameAt(w.files, files, paths[2]) || paths[2] !in files;
    assert SameAt(w.files, files, paths[3]) || paths[3] !in files;
  }

  // ---- Prune ----

  /** One marker beyond the kept ones; only its own removal may raise an I/O error. */
  function PruneOne(w: World, o: Answers, name: Name): Effect {
    var read := After(w, w.files);
    var emptied :=
      if !o(w.clock).Fine? then Effect(read, o(w.clock))
      else if Marker(name) !in w.files || !w.files[Marker(name)].Manifest? then Effect(read, IoError)
      else RemoveAll(read, o, [Snapshot(w.files[Marker(name)].generation, Main), Snapshot(w.files[Marker(name)].generation, Relay)]);
    if emptied.signal.Fatal? || emptied.signal.Crashed? then emptied else Remove(emptied.world, o, Marker(name))
  }

  function PruneAll(w: World, o: Answers, names: seq<Name>): Effect
    decreases |names|
  {
    if names == [] then Effect(w, Fine)
    else
      var first := PruneOne(w, o, names[0]);
      if !first.signal.Fine? then first else PruneAll(first.world, o, names[1..])
  }

  /** `prune_old_snapshots` for a directory with markers. */
  function Prune(w: World, o: Answers, names: seq<Name>, keep: nat): Effect {
    PruneAll(w, o, if keep < |names| then names[keep..] else [])
  }

  /** Every readable marker names its own generation, as create writes it. */
  ghost predicate Consistent(files: Files) {
    forall n :: Marker(n) in files && files[Marker(n)].Manifest? ==> files[Marker(n)].generation == n
  }

  lemma CreateStaysConsistent(w: World, o: Answers, g: Name, main: Content, relay: Content)
    requires Consistent(w.files) && Unused(w.files, g)
    ensures Consistent(Create(w, o, g, main, relay).world.files)
  {
    assert OfGeneration(Marker(g), g);
    CreateTouchesOnly(w, o, g, main, relay);
    CreateMarksItself(w, o, g, main, relay);
    assert forall n :: n != g ==> SameAt(w.files, Create(w, o, g, main, relay).world.files, Marker(n));
  }

  lemma CreateBodyMarks(w: World, o: Answers, g: Name, main: Content, relay: Content)
    requires Marker(g) !in w.files
    ensures var e := CreateBody(w, o, g, main, relay); Marker(g) in e.world.files ==> e.world.files[Marker(g)] == Manifest(g)
  {
    BackingUpTouchesOnly(w, o, g, main, relay);
    var backed := BackUpBoth(w, o, g, main, relay);
    if backed.signal.Fine? {
      NamingTouchesOnly(backed.world, o, g);
      var named := NameBoth(backed.world, o, g);
      if named.signal.Fine? { PublishingTouchesOnly(named.world, o, g); }
    }
  }

  /** Only the files of one generation, and the marker that names it, go. */
  ghost predicate OthersUntouched(a: Files, b: Files, gone: seq<Name>) {
    && (forall n, r :: n !in gone ==> SameAt(a, b, Snapshot(n, r)))
    && (forall n :: n !in gone ==> SameAt(a, b, Marker(n)))
    && (forall n :: Marker(n) in b ==> SameAt(a, b, Marker(n)))
  }

  lemma PruningOneTouchesOne(w: World, o: Answers, name: Name)
    requires Consistent(w.files)
    ensures var e := PruneOne(w, o, name);
      && OthersUntouched(w.files, e.world.files, [name]) && Consistent(e.world.files)
      && (e.signal.Fine? ==> Marker(name) !in e.world.files)
  {
    var paths := [Snapshot(name, Main), Snapshot(name, Relay)];
    RemovingOnlyRemoves(After(w, w.files), o, paths);
    var emptied := RemoveAll(After(w, w.files), o, paths).world.files;
    var e := PruneOne(w, o, name);
    forall p | p !in paths && p != Marker(name)
      ensures SameAt(w.files, e.world.files, p)
    {
      assert SameAt(w.files, emptied, p);
    }
    assert Marker(name) !in paths;
    assert SameAt(w.files, emptied, Marker(name));
  }

  lemma {:induction false} PruningTouchesOnlyThePruned(w: World, o: Answers, names: seq<Name>)
    requires Consistent(w.files)
    ensures var e := PruneAll(w, o, names);
      && OthersUntouched(w.files, e.world.files, names) && Consistent(e.world.files)
      && (e.signal.Fine? ==> forall n :: n in names ==> Marker(n) !in e.world.files)
    decreases |names|
  {
    if names != [] {
      PruningOneTouchesOne(w, o, names[0]);
      var first := PruneOne(w, o, names[0]);
      if first.signal.Fine? { PruningTouchesOnlyThePruned(first.world, o, names[1..]); }
    }
  }

  /**
   * The `keep` newest markers keep what they had, however pruning ends; pruning
   * that succeeds leaves no other marker.
   */
  lemma PruneKeepsExactlyTheNewest(w: World, o: Answers, names: seq<Name>, keep: nat, i: nat)
    requires Consistent(w.files) && Listing(names, w.files) && i < |names|
    ensures var e := Prune(w, o, names, keep);
      && (i < keep ==> (Restorable(e.world.files, names[i]) <==> Restorable(w.files, names[i])))
      && (e.signal.Fine? ==> (Marker(names[i]) in e.world.files <==> i < keep))
  {
    var gone := if keep < |names| then names[keep..] else [];
    PruningTouchesOnlyThePruned(w, o, gone);
    var files := Prune(w, o, names, keep).world.files;
    if i < keep {
      assert names[i] !in gone;
      assert SameAt(w.files, files, Marker(names[i]));
      assert SameAt(w.files, files, Snapshot(names[i], Main)) && SameAt(w.files, files, Snapshot(names[i], Relay));
    } else {
      assert names[i] == gone[i - keep];
    }
  }

  /**
   * Create, then prune: the new generation stays restorable exactly when fewer than
   * `keep` markers have a greater name.  A clock that only goes forward makes it the
   * first of the listing, so any `keep` of one or more retains it.
   */
  lemma CreatedThenPruned(w: World, o: Answers, g: Name, main: Content, relay: Content, names: seq<Name>, keep: nat, i: nat)
    requires Consistent(w.files) && Unused(w.files, g)
    requires Create(w, o, g, main, relay).signal.Fine?
    requires Listing(names, Create(w, o, g, main, relay).world.files)
    requires i < |names| && names[i] == g
    ensures var e := Prune(Create(w, o, g, main, relay).world, o, names, keep);
      && (i < keep ==> Restorable(e.world.files, g))
      && (e.signal.Fine? ==> (Restorable(e.world.files, g) <==> i < keep))
      && ((forall n: Name :: Marker(n) in w.files ==> n < g) && keep >= 1 ==> Restorable(e.world.files, g))
  {
    CreateIsAllOrNothing(w, o, g, main, relay);
    CreateStaysConsistent(w, o, g, main, relay);
    var x := Create(w, o, g, main, relay).world;
    PruneKeepsExactlyTheNewest(x, o, names, keep, i);
    if forall n: Name :: Marker(n) in w.files ==> n < g {
      CreatedIsTheFirst(w, o, g, main, relay, names, i);
    }
  }

  lemma CreatedIsTheFirst(w: World, o: Answers, g: Name, main: Content, relay: Content, names: seq<Name>, i: nat)
    requires Marker(g) !in w.files && forall n: Name :: Marker(n) in w.files ==> n < g
    requires Listing(names, Create(w, o, g, main, relay).world.files) && i < |names| && names[i] == g
    ensures i == 0
  {
    CreateTouchesOnly(w, o, g, main, relay);
    var files := Create(w, o, g, main, relay).world.files;
    assert names[0] in names;
    assert names[0] == g || SameAt(w.files, files, Marker(names[0]));
    FirstIsGreatest(names, i);
  }

  lemma FirstIsGreatest(names: seq<Name>, i: nat)
    requires i < |names| && forall i, j :: 0 <= i < j < |names| ==> names[j] < names[i]
    ensures i == 0 || names[i] < names[0]
  {
  }
}

/**
 * The snapshot operations as they change files step by step.
 */
module SnapshotStore {
  import opened Wrappers
  import opened Snapshots
  import opened SnapshotRetention

  class Store {
    const answers: Answers
    var files: Files
    var clock: nat

    constructor (o: Answers, content: Files)
      ensures answers == o && Now() == World(content, 0)
    {
      answers := o;
      files := content;
      clock := 0;
    }

    function Now(): World
      reads this
    {
      World(files, clock)
    }

    // ---- One operation ----

    method Put(to: Path, content: Option<Content>) returns (signal: Signal)
      modifies this
      ensures Effect(Now(), signal) == WriteFile(old(Now()), answers, to, content)
    {
      signal := answers(clock);
      clock := clock + 1;
      if content.None? {
        signal := if signal.Fine? then IoError else signal;
      } else if signal.Fine? {
        files := files[to := content.value];
      } else {
        files := files[to := Torn];
      }
    }

    method Replace(from: Path, to: Path) returns (signal: Signal)
      modifies this
      ensures Effect(Now(), signal) == Move(old(Now()), answers, from, to)
    {
      signal := answers(clock);
      clock := clock + 1;
      if signal.Fine? {
        if from in files {
          files := (files - {from})[to := files[from]];
        } else {
          signal := IoError;
        }
      }
    }

    method Unlink(p: Path) returns (signal: Signal)
      modifies this
      ensures Effect(Now(), signal) == Remove(old(Now()), answers, p)
    {
      signal := answers(clock);
      clock := clock + 1;
      if signal.Fine? { files := files - {p}; }
    }

    method Validate(p: Path) returns (signal: Signal, sound: bool)
      modifies this
      ensures Checked(Now(), signal, sound) == Check(old(Now()), answers, p)
    {
      var answer := answers(clock);
      clock := clock + 1;
      signal := if answer.IoError? then Fine else answer;
      sound := answer.Fine? && Sound(files, p);
    }

    // ---- Restore ----

    /** Copy both files next to their targets and check the copies. */
    method StagePair(g: Name) returns (signal: Signal)
      modifies this
      ensures Effect(Now(), signal) == StageBoth(old(Now()), answers, g)
    {
      var roles := [Main, Relay];
      var i := 0;
      signal := Fine;
      while i < 2 && signal.Fine?
        invariant i <= 2
        invariant i == 0 ==> signal.Fine? && Now() == old(Now())
        invariant i == 1 ==> Effect(Now(), signal) == StageOne(old(Now()), answers, g, Main)
        invariant i == 2 ==> Effect(Now(), signal) == StageBoth(old(Now()), answers, g)
        decreases 2 - i
      {
        var role := roles[i];
        var source := ContentAt(files, Snapshot(g, role));
        signal := Put(Staged(role), source);
        if signal.Fine? {
          var sound;
          signal, sound := Validate(Staged(role));
          if signal.Fine? && !sound { signal := Fatal; }
        }
        i := i + 1;
      }
    }

    /** Replace both live files and remove their stale sidecars, one role after the other. */
    method PlacePair() returns (signal: Signal)
      modifies this
      ensures Effect(Now(), signal) == PlaceBoth(old(Now()), answers)
    {
      var roles := [Main, Relay];
      var i := 0;
      signal := Fine;
      while i < 2 && signal.Fine?
        invariant i <= 2
        invariant i == 0 ==> signal.Fine? && Now() == old(Now())
        invariant i == 1 ==> Effect(Now(), signal) == PlaceOne(old(Now()), answers, Main)
        invariant i == 2 ==> Effect(Now(), signal) == PlaceBoth(old(Now()), answers)
        decreases 2 - i
      {
        var role := roles[i];
        signal := Replace(Staged(role), Live(role));
        if signal.Fine? { signal := Unlink(Wal(role)); }
        if signal.Fine? { signal := Unlink(Shm(role)); }
        i := i + 1;
      }
    }

    method RestoreGeneration(g: Name) returns (signal: Signal)
      modifies this
      ensures Effect(Now(), signal) == RestorePair(old(Now()), answers, g)
    {
      signal := StagePair(g);
      if signal.Fine? { signal := PlacePair(); }
      if signal.IoError? || signal.Fatal? {
        var cleaning := Unlink(Staged(Main));
        if cleaning.Fine? { cleaning := Unlink(Staged(Relay)); }
        if !cleaning.Fine? { signal := cleaning; }
      }
    }

    method TryGeneration(name: Name) returns (signal: Signal)
      modifies this
      ensures Effect(Now(), signal) == TryMarker(old(Now()), answers, name)
    {
      signal := answers(clock);
      clock := clock + 1;
      if signal.Fine? {
        if Marker(name) !in files || !files[Marker(name)].Manifest? {
          signal := IoError;
        } else {
          var g := files[Marker(name)].generation;
          var sound;
          signal, sound := Validate(Snapshot(g, Main));
          if signal.Fine? && sound { signal, sound := Validate(Snapshot(g, Relay)); }
          if signal.Fine? {
            if sound { signal := RestoreGeneration(g); } else { signal := IoError; }
          }
        }
      }
    }

    /** `restore_snapshot` for a pair; `names` is the sorted listing of the markers. */
    method RestoreSnapshot(names: seq<Name>) returns (verdict: Verdict)
      requires Listing(names, files)
      modifies this
      ensures Result(Now(), verdict) == Restore(old(Now()), answers, names)
      ensures SameDirectory(old(files), files)
      ensures verdict.Restored? ==> NoSidecars(files) && exists n :: n in names && IsPairOf(files, old(files), n)
    {
      RestoredIsOneGeneration(Now(), answers, names);
      if Live(Main) in files && Live(Relay) in files { return NotRestored; }
      if Live(Main) in files || Live(Relay) in files { return Raised; }
      var i := 0;
      while i < |names|
        invariant i <= |names|
        invariant Scan(old(Now()), answers, names) == Scan(Now(), answers, names[i..])
      {
        assert names[i..][0] == names[i] && names[i..][1..] == names[i + 1..];
        var signal := TryGeneration(names[i]);
        match signal {
          case Fine => return Restored;
          case Fatal => return Raised;
          case Crashed => return Ended;
          case IoError => i := i + 1;
        }
      }
      return NotRestored;
    }

    // ---- Create ----

    method UnlinkAll(paths: seq<Path>) returns (signal: Signal)
      modifies this
      ensures Effect(Now(), signal) == RemoveAll(old(Now()), answers, paths)
    {
      var i := 0;
      signal := Fine;
      while i < |paths|
        invariant i <= |paths| && signal.Fine?
        invariant RemoveAll(old(Now()), answers, paths) == RemoveAll(Now(), answers, paths[i..])
      {
        assert paths[i..][0] == paths[i] && paths[i..][1..] == paths[i + 1..];
        signal := Unlink(paths[i]);
        if !signal.Fine? { return; }
        i := i + 1;
      }
    }

    method BackUp(g: Name, main: Content, relay: Content) returns (signal: Signal)
      modifies this
      ensures Effect(Now(), signal) == BackUpBoth(old(Now()), answers, g, main, relay)
    {
      var roles := [Main, Relay];
      var i := 0;
      signal := Fine;
      while i < 2 && signal.Fine?
        invariant i <= 2
        invariant i == 0 ==> signal.Fine? && Now() == old(Now())
        invariant i == 1 ==> Effect(Now(), signal) == BackUpOne(old(Now()), answers, g, Main, main)
        invariant i == 2 ==> Effect(Now(), signal) == BackUpBoth(old(Now()), answers, g, main, relay)
        decreases 2 - i
      {
        var role := roles[i];
        signal := Put(SnapshotTmp(g, role), Some(if role.Main? then main else relay));
        if signal.Fine? {
          var sound;
          signal, sound := Validate(SnapshotTmp(g, role));
          if signal.Fine? && !sound { signal := Fatal; }
        }
        i := i + 1;
      }
    }

    /** Give both validated files their names, then place the marker over them. */
    method NameAndMark(g: Name) returns (signal: Signal)
      modifies this
      ensures var named := NameBoth(old(Now()), answers, g);
        Effect(Now(), signal) == if named.signal.Fine? then Publish(named.world, answers, g) else named
    {
      signal := Replace(SnapshotTmp(g, Main), Snapshot(g, Main));
      if signal.Fine? { signal := Replace(SnapshotTmp(g, Relay), Snapshot(g, Relay)); }
      if signal.Fine? { signal := Mark(g); }
    }

    method Mark(g: Name) returns (signal: Signal)
      modifies this
      ensures Effect(Now(), signal) == Publish(old(Now()), answers, g)
    {
      signal := Put(MarkerTmp(g), Some(Manifest(g)));
      if signal.Fine? { signal := Replace(MarkerTmp(g), Marker(g)); }
      if signal.Fine? {
        // An interrupt may strike before the path is returned.
        signal := if answers(clock).IoError? then Fine else answers(clock);
        clock := clock + 1;
      }
    }

    method MakeSnapshot(g: Name, main: Content, relay: Content) returns (signal: Signal)
      modifies this
      ensures Effect(Now(), signal) == CreateBody(old(Now()), answers, g, main, relay)
    {
      signal := BackUp(g, main, relay);
      if signal.Fine? { signal := NameAndMark(g); }
    }

    /** `create_snapshot` for a pair with the given live contents. */
    method CreateSnapshot(g: Name, main: Content, relay: Content) returns (signal: Signal)
      modifies this
      ensures Effect(Now(), signal) == Create(old(Now()), answers, g, main, relay)
      ensures Unused(old(files), g) && signal.Fine? ==>
                Restorable(files, g) && PairContent(files, g, Main) == main && PairContent(files, g, Relay) == relay
      ensures Unused(old(files), g) ==> forall n :: Restorable(old(files), n) ==> Restorable(files, n)
    {
      ghost var before := Now();
      signal := MakeSnapshot(g, main, relay);
      if signal.IoError? || signal.Fatal? {
        var cleaning := UnlinkAll(Leftovers(g));
        if !cleaning.Fine? { signal := cleaning; }
      }
      assert Effect(Now(), signal) == Create(before, answers, g, main, relay);
      if Unused(before.files, g) { CreateIsAllOrNothing(before, answers, g, main, relay); }
    }

    // ---- Prune ----

    method PruneGeneration(name: Name) returns (signal: Signal)
      modifies this
      ensures Effect(Now(), signal) == PruneOne(old(Now()), answers, name)
    {
      signal := answers(clock);
      clock := clock + 1;
      if signal.Fine? {
        if Marker(name) in files && files[Marker(name)].Manifest? {
          var g := files[Marker(name)].generation;
          signal := UnlinkAll([Snapshot(g, Main), Snapshot(g, Relay)]);
        } else {
          signal := IoError;
        }
      }
      if signal.Fine? || signal.IoError? { signal := Unlink(Marker(name)); }
    }

    /** `prune_old_snapshots`. */
    method PruneSnapshots(names: seq<Name>, keep: nat) returns (signal: Signal)
      requires Listing(names, files)
      modifies this
      ensures Effect(Now(), signal) == Prune(old(Now()), answers, names, keep)
      ensures Consistent(old(files)) ==>
                forall i :: 0 <= i < |names| && i < keep ==> (Restorable(files, names[i]) <==> Restorable(old(files), names[i]))
      ensures Consistent(old(files)) && signal.Fine? ==>
                forall i :: 0 <= i < |names| ==> (Marker(names[i]) in files <==> i < keep)
    {
      forall i | 0 <= i < |names| && Consistent(files)
        ensures var e := Prune(Now(), answers, names, keep);
          && (i < keep ==> (Restorable(e.world.files, names[i]) <==> Restorable(files, names[i])))
          && (e.signal.Fine? ==> (Marker(names[i]) in e.world.files <==> i < keep))
      {
        PruneKeepsExactlyTheNewest(Now(), answers, names, keep, i);
      }
      var rest := if keep < |names| then names[keep..] else [];
      var i := 0;
      signal := Fine;
      while i < |rest|
        invariant i <= |rest| && signal.Fine?
        invariant PruneAll(old(Now()), answers, rest) == PruneAll(Now(), answers, rest[i..])
      {
        assert rest[i..][0] == rest[i] && rest[i..][1..] == rest[i + 1..];
        signal := PruneGeneration(rest[i]);
        if !signal.Fine? { return; }
        i := i + 1;
      }
    }
  }
}

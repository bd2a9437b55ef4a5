/**
 * Paired database snapshots: restoring a pair over a file map, with an answer of
 * the operating system for every file operation.
 *
 * An answer may be an I/O error, an exception that is not one (an interrupt or a
 * failed validation), or the end of the process.  The k-th operation of a run
 * gets the k-th answer, so a statement for all answers covers every interruption.
 */
module Snapshots {
  import opened Wrappers

  type Name = nat

  datatype Role = Main | Relay

  datatype Path =
    | Snapshot(generation: Name, role: Role)
    | SnapshotTmp(generation: Name, role: Role)
    | Marker(name: Name)
    | MarkerTmp(name: Name)
    | Live(role: Role)
    | Staged(role: Role)
    | Wal(role: Role)
    | Shm(role: Role)

  /** `sound` is the verdict of the integrity check. */
  datatype Content = Database(data: nat, sound: bool) | Manifest(generation: Name) | Torn

  type Files = map<Path, Content>

  datatype Signal = Fine | IoError | Fatal | Crashed

  type Answers = nat -> Signal

  datatype World = World(files: Files, clock: nat)

  datatype Effect = Effect(world: World, signal: Signal)

  predicate Sound(files: Files, p: Path) {
    p in files && files[p].Database? && files[p].sound
  }

  // ---- File operations ----

  function After(w: World, files: Files): World {
    World(files, w.clock + 1)
  }

  /** Write or copy a whole file; an interrupted write leaves a torn file. */
  function WriteFile(w: World, o: Answers, to: Path, content: Option<Content>): Effect {
    if content.None? then Effect(After(w, w.files), if o(w.clock).Fine? then IoError else o(w.clock))
    else Effect(After(w, w.files[to := if o(w.clock).Fine? then content.value else Torn]), o(w.clock))
  }

  function ContentAt(files: Files, p: Path): Option<Content> {
    if p in files then Some(files[p]) else None
  }

  /** `os.replace`. */
  function Move(w: World, o: Answers, from: Path, to: Path): Effect {
    if !o(w.clock).Fine? then Effect(After(w, w.files), o(w.clock))
    else if from !in w.files then Effect(After(w, w.files), IoError)
    else Effect(After(w, (w.files - {from})[to := w.files[from]]), Fine)
  }

  /** `unlink(missing_ok=True)`. */
  function Remove(w: World, o: Answers, p: Path): Effect {
    Effect(After(w, if o(w.clock).Fine? then w.files - {p} else w.files), o(w.clock))
  }

  datatype Checked = Checked(world: World, signal: Signal, sound: bool)

  /** `_validate_snapshot`: an I/O error reads as an unsound file. */
  function Check(w: World, o: Answers, p: Path): Checked {
    match o(w.clock)
    case Fine => Checked(After(w, w.files), Fine, Sound(w.files, p))
    case IoError => Checked(After(w, w.files), Fine, false)
    case other => Checked(After(w, w.files), other, false)
  }

  // ---- Restore ----

  function StageOne(w: World, o: Answers, g: Name, role: Role): Effect {
    var copied := WriteFile(w, o, Staged(role), ContentAt(w.files, Snapshot(g, role)));
    if !copied.signal.Fine? then copied
    else
      var checked := Check(copied.world, o, Staged(role));
      Effect(checked.world, if checked.signal.Fine? && !checked.sound then Fatal else checked.signal)
  }

  function PlaceOne(w: World, o: Answers, role: Role): Effect {
    var moved := Move(w, o, Staged(role), Live(role));
    if !moved.signal.Fine? then moved
    else
      var wal := Remove(moved.world, o, Wal(role));
      if !wal.signal.Fine? then wal else Remove(wal.world, o, Shm(role))
  }

  function StageBoth(w: World, o: Answers, g: Name): Effect {
    var first := StageOne(w, o, g, Main);
    if !first.signal.Fine? then first else StageOne(first.world, o, g, Relay)
  }

  function PlaceBoth(w: World, o: Answers): Effect {
    var first := PlaceOne(w, o, Main);
    if !first.signal.Fine? then first else PlaceOne(first.world, o, Relay)
  }

  function CleanStaged(w: World, o: Answers): Effect {
    var first := Remove(w, o, Staged(Main));
    if !first.signal.Fine? then first else Remove(first.world, o, Staged(Relay))
  }

  /** Stage and place one generation; any exception removes the staged files first. */
  function RestorePair(w: World, o: Answers, g: Name): Effect {
    var staged := StageBoth(w, o, g);
    var placed := if staged.signal.Fine? then PlaceBoth(staged.world, o) else staged;
    if placed.signal.Fine? || placed.signal.Crashed? then placed
    else
      var cleaned := CleanStaged(placed.world, o);
      Effect(cleaned.world, if cleaned.signal.Fine? then placed.signal else cleaned.signal)
  }

  /** The two checks of a generation; the second is skipped when the first fails. */
  function CheckBoth(w: World, o: Answers, g: Name): Checked {
    var main := Check(w, o, Snapshot(g, Main));
    if !main.signal.Fine? || !main.sound then main else Check(main.world, o, Snapshot(g, Relay))
  }

  /** What is done with a generation once its two files were checked. */
  function AfterChecks(checked: Checked, o: Answers, g: Name): Effect {
    if !checked.signal.Fine? then Effect(checked.world, checked.signal)
    else if !checked.sound then Effect(checked.world, IoError)
    else RestorePair(checked.world, o, g)
  }

  /** One marker: `IoError` stands for every exception that moves on to the next marker. */
  function TryMarker(w: World, o: Answers, name: Name): Effect {
    var read := After(w, w.files);
    if !o(w.clock).Fine? then Effect(read, o(w.clock))
    else if Marker(name) !in w.files || !w.files[Marker(name)].Manifest? then Effect(read, IoError)
    else
      var g := w.files[Marker(name)].generation;
      AfterChecks(CheckBoth(read, o, g), o, g)
  }

  datatype Verdict = Restored | NotRestored | Raised | Ended

  datatype Result = Result(world: World, verdict: Verdict)

  function Scan(w: World, o: Answers, names: seq<Name>): Result
    decreases |names|
  {
    if names == [] then Result(w, NotRestored)
    else
      var tried := TryMarker(w, o, names[0]);
      match tried.signal
      case Fine => Result(tried.world, Restored)
      case IoError => Scan(tried.world, o, names[1..])
      case Fatal => Result(tried.world, Raised)
      case Crashed => Result(tried.world, Ended)
  }

  /** The markers of a directory, newest name first. */
  ghost predicate Listing(names: seq<Name>, files: Files) {
    && (forall i, j :: 0 <= i < j < |names| ==> names[j] < names[i])
    && (forall n :: n in names <==> Marker(n) in files)
  }

  function Restore(w: World, o: Answers, names: seq<Name>): Result {
    if Live(Main) in w.files && Live(Relay) in w.files then Result(w, NotRestored)
    else if Live(Main) in w.files || Live(Relay) in w.files then Result(w, Raised)
    else Scan(w, o, names)
  }

  // ---- What a directory offers ----

  predicate Restorable(files: Files, name: Name) {
    Marker(name) in files && files[Marker(name)].Manifest?
    && Sound(files, Snapshot(files[Marker(name)].generation, Main))
    && Sound(files, Snapshot(files[Marker(name)].generation, Relay))
  }

  function PairContent(files: Files, name: Name, role: Role): Content
    requires Restorable(files, name)
  {
    var g := files[Marker(name)].generation;
    if role.Main? then files[Snapshot(g, Main)] else files[Snapshot(g, Relay)]
  }

  predicate OfDirectory(p: Path) {
    p.Snapshot? || p.SnapshotTmp? || p.Marker? || p.MarkerTmp?
  }

  predicate SameAt(a: Files, b: Files, p: Path) {
    (p in a <==> p in b) && (p in a ==> a[p] == b[p])
  }

  /** Restoring never touches the snapshot directory. */
  ghost predicate SameDirectory(a: Files, b: Files) {
    forall p :: OfDirectory(p) ==> SameAt(a, b, p)
  }

  predicate SameLive(a: Files, b: Files) {
    SameAt(a, b, Live(Main)) && SameAt(a, b, Live(Relay))
  }

  predicate LiveIs(files: Files, role: Role, content: Content) {
    Live(role) in files && files[Live(role)] == content
  }

  /** Both live files are copies of the two sound files of one generation. */
  predicate IsPairOf(files: Files, dir: Files, name: Name) {
    Restorable(dir, name)
    && LiveIs(files, Main, PairContent(dir, name, Main)) && LiveIs(files, Relay, PairContent(dir, name, Relay))
  }

  /** From `a` to `b` nothing live was replaced, or the main file, or the main and then the relay file. */
  predicate Placed(a: Files, b: Files, main: Content, relay: Content) {
    SameLive(a, b) || (LiveIs(b, Main, main) && (SameAt(a, b, Live(Relay)) || LiveIs(b, Relay, relay)))
  }

  // ---- One generation ----

  lemma StagingKeeps(w: World, o: Answers, g: Name)
    ensures var e := StageBoth(w, o, g);
      && SameDirectory(w.files, e.world.files) && SameLive(w.files, e.world.files)
      && (e.signal.Fine? ==>
            && Snapshot(g, Main) in w.files && Snapshot(g, Relay) in w.files
            && Staged(Main) in e.world.files && e.world.files[Staged(Main)] == w.files[Snapshot(g, Main)]
            && Staged(Relay) in e.world.files && e.world.files[Staged(Relay)] == w.files[Snapshot(g, Relay)])
  {
  }

  lemma CleaningKeeps(w: World, o: Answers)
    ensures var e := CleanStaged(w, o); SameDirectory(w.files, e.world.files) && SameLive(w.files, e.world.files)
  {
  }

  lemma PlacingOneRole(w: World, o: Answers, role: Role)
    requires Staged(role) in w.files
    ensures var e := PlaceOne(w, o, role);
      && (forall p :: p != Staged(role) && p != Live(role) && p != Wal(role) && p != Shm(role) ==> SameAt(w.files, e.world.files, p))
      && (SameAt(w.files, e.world.files, Live(role)) || LiveIs(e.world.files, role, w.files[Staged(role)]))
      && (e.signal.Fine? ==> LiveIs(e.world.files, role, w.files[Staged(role)]))
  {
  }

  lemma PlacingOrders(w: World, o: Answers)
    requires Staged(Main) in w.files && Staged(Relay) in w.files
    ensures var e := PlaceBoth(w, o);
      && SameDirectory(w.files, e.world.files)
      && Placed(w.files, e.world.files, w.files[Staged(Main)], w.files[Staged(Relay)])
      && (e.signal.Fine? ==> LiveIs(e.world.files, Main, w.files[Staged(Main)]) && LiveIs(e.world.files, Relay, w.files[Staged(Relay)]))
  {
    var first := PlaceOne(w, o, Main);
    PlacingOneRole(w, o, Main);
    if first.signal.Fine? { PlacingOneRole(first.world, o, Relay); }
  }

  lemma RestoringPairPlaces(w: World, o: Answers, g: Name)
    requires Snapshot(g, Main) in w.files && Snapshot(g, Relay) in w.files
    ensures var e := RestorePair(w, o, g);
      && SameDirectory(w.files, e.world.files)
      && Placed(w.files, e.world.files, w.files[Snapshot(g, Main)], w.files[Snapshot(g, Relay)])
      && (e.signal.Fine? ==> LiveIs(e.world.files, Main, w.files[Snapshot(g, Main)]) && LiveIs(e.world.files, Relay, w.files[Snapshot(g, Relay)]))
  {
    var staged := StageBoth(w, o, g);
    StagingKeeps(w, o, g);
    var placed := staged;
    if staged.signal.Fine? {
      PlacingOrders(staged.world, o);
      placed := PlaceBoth(staged.world, o);
    }
    if !placed.signal.Fine? && !placed.signal.Crashed? { CleaningKeeps(placed.world, o); }
  }

  lemma CheckingBoth(w: World, o: Answers, g: Name)
    ensures var c := CheckBoth(w, o, g);
      && c.world.files == w.files
      && (c.signal.Fine? && c.sound ==>
            && c.world.clock == w.clock + 2 && o(w.clock).Fine? && o(w.clock + 1).Fine?
            && Sound(w.files, Snapshot(g, Main)) && Sound(w.files, Snapshot(g, Relay)))
      && (Sound(w.files, Snapshot(g, Main)) && Sound(w.files, Snapshot(g, Relay)) && o(w.clock).Fine? && o(w.clock + 1).Fine? ==>
            c.signal.Fine? && c.sound)
      && !c.signal.IoError?
  {
  }

  lemma TryingUnrestorable(w: World, o: Answers, name: Name)
    requires !Restorable(w.files, name)
    ensures var e := TryMarker(w, o, name); e.world.files == w.files && !e.signal.Fine?
  {
    if Marker(name) in w.files && w.files[Marker(name)].Manifest? {
      CheckingBoth(After(w, w.files), o, w.files[Marker(name)].generation);
    }
  }

  lemma ReadableMarkerIsChecked(w: World, o: Answers, name: Name)
    requires Restorable(w.files, name) && o(w.clock).Fine?
    ensures var g := w.files[Marker(name)].generation;
      TryMarker(w, o, name) == AfterChecks(CheckBoth(After(w, w.files), o, g), o, g)
  {
  }

  lemma PassedOverOrRestored(w: World, o: Answers, g: Name)
    requires Sound(w.files, Snapshot(g, Main)) && Sound(w.files, Snapshot(g, Relay))
    ensures var e := AfterChecks(CheckBoth(w, o, g), o, g);
      || (e.world.files == w.files && !e.signal.Fine?)
      || e == RestorePair(World(w.files, w.clock + 2), o, g)
  {
    var checked := CheckBoth(w, o, g);
    CheckingBoth(w, o, g);
    if checked.signal.Fine? && checked.sound { assert checked.world == World(w.files, w.clock + 2); }
  }

  /** A restorable generation is passed over untouched, or staged and placed. */
  lemma TryingRestorable(w: World, o: Answers, name: Name)
    requires Restorable(w.files, name)
    ensures var e := TryMarker(w, o, name);
      || (e.world.files == w.files && !e.signal.Fine?)
      || e == RestorePair(World(w.files, w.clock + 3), o, w.files[Marker(name)].generation)
  {
    var read := After(w, w.files);
    assert World(read.files, read.clock + 2) == World(w.files, w.clock + 3);
    if o(w.clock).Fine? {
      ReadableMarkerIsChecked(w, o, name);
      PassedOverOrRestored(read, o, w.files[Marker(name)].generation);
    } else {
      assert TryMarker(w, o, name) == Effect(read, o(w.clock));
    }
  }

  /** A marker without a restorable generation changes nothing; a restorable one places its own two files. */
  lemma TryingPlaces(w: World, o: Answers, name: Name)
    ensures var e := TryMarker(w, o, name);
      && SameDirectory(w.files, e.world.files)
      && (!Restorable(w.files, name) ==> SameLive(w.files, e.world.files) && !e.signal.Fine?)
      && (Restorable(w.files, name) ==>
            Placed(w.files, e.world.files, PairContent(w.files, name, Main), PairContent(w.files, name, Relay)))
      && (e.signal.Fine? ==> IsPairOf(e.world.files, w.files, name))
  {
    if Restorable(w.files, name) {
      TryingRestorable(w, o, name);
      RestoringPairPlaces(World(w.files, w.clock + 3), o, w.files[Marker(name)].generation);
    } else {
      TryingUnrestorable(w, o, name);
    }
  }

  // ---- A scan, whatever is answered ----

  predicate MainFrom(files: Files, dir: Files, name: Name) {
    Restorable(dir, name) && LiveIs(files, Main, PairContent(dir, name, Main))
  }

  predicate RelayFrom(files: Files, dir: Files, name: Name) {
    Restorable(dir, name) && LiveIs(files, Relay, PairContent(dir, name, Relay))
  }

  /** No live file yet; or a main file of a tried generation, with no relay file or one tried no later. */
  ghost predicate Traced(files: Files, dir: Files, names: seq<Name>, tried: nat)
    requires tried <= |names|
  {
    || (Live(Main) !in files && Live(Relay) !in files)
    || (exists b :: 0 <= b < tried && MainFrom(files, dir, names[b])
          && (Live(Relay) !in files || exists a :: 0 <= a <= b && RelayFrom(files, dir, names[a])))
  }

  lemma RestorableElsewhere(a: Files, b: Files, name: Name)
    requires SameDirectory(a, b)
    ensures Restorable(a, name) <==> Restorable(b, name)
    ensures Restorable(a, name) ==> forall r :: PairContent(a, name, r) == PairContent(b, name, r)
  {
    assert SameAt(a, b, Marker(name));
    if Marker(name) in a && a[Marker(name)].Manifest? {
      var g := a[Marker(name)].generation;
      assert SameAt(a, b, Snapshot(g, Main)) && SameAt(a, b, Snapshot(g, Relay));
    }
  }

  lemma TryingStaysTraced(w: World, o: Answers, dir: Files, names: seq<Name>, k: nat)
    requires k < |names| && SameDirectory(dir, w.files) && Traced(w.files, dir, names, k)
    ensures var e := TryMarker(w, o, names[k]);
      && SameDirectory(dir, e.world.files) && Traced(e.world.files, dir, names, k + 1)
      && (e.signal.Fine? ==> IsPairOf(e.world.files, dir, names[k]))
  {
    var e := TryMarker(w, o, names[k]);
    TryingPlaces(w, o, names[k]);
    RestorableElsewhere(dir, w.files, names[k]);
    if SameLive(w.files, e.world.files) {
      if b :| 0 <= b < k && MainFrom(w.files, dir, names[b])
              && (Live(Relay) !in w.files || exists a :: 0 <= a <= b && RelayFrom(w.files, dir, names[a])) {
        assert MainFrom(e.world.files, dir, names[b]);
        if a :| 0 <= a <= b && RelayFrom(w.files, dir, names[a]) {
          assert RelayFrom(e.world.files, dir, names[a]);
        }
      }
    } else {
      assert MainFrom(e.world.files, dir, names[k]);
      if LiveIs(e.world.files, Relay, PairContent(dir, names[k], Relay)) {
        assert RelayFrom(e.world.files, dir, names[k]);
      } else if Live(Relay) in w.files {
        var b :| 0 <= b < k && MainFrom(w.files, dir, names[b])
                 && (Live(Relay) !in w.files || exists a :: 0 <= a <= b && RelayFrom(w.files, dir, names[a]));
        var a :| 0 <= a <= b && RelayFrom(w.files, dir, names[a]);
        assert RelayFrom(e.world.files, dir, names[a]);
      }
    }
  }

  lemma {:induction false} ScanStaysTraced(w: World, o: Answers, dir: Files, names: seq<Name>, k: nat)
    requires k <= |names| && SameDirectory(dir, w.files) && Traced(w.files, dir, names, k)
    ensures var r := Scan(w, o, names[k..]);
      && SameDirectory(dir, r.world.files) && Traced(r.world.files, dir, names, |names|)
      && (r.verdict.Restored? ==> exists n :: n in names && IsPairOf(r.world.files, dir, n))
    decreases |names| - k
  {
    if k < |names| {
      TryingStaysTraced(w, o, dir, names, k);
      var e := TryMarker(w, o, names[k]);
      assert names[k..][0] == names[k] && names[k..][1..] == names[k + 1..];
      TracedLater(e.world.files, dir, names, k + 1);
      if e.signal.IoError? { ScanStaysTraced(e.world, o, dir, names, k + 1); }
    }
  }

  lemma TracedLater(files: Files, dir: Files, names: seq<Name>, k: nat)
    requires k <= |names| && Traced(files, dir, names, k)
    ensures Traced(files, dir, names, |names|)
  {
  }

  // ---- Sidecars ----

  /** No write-ahead log or shared-memory file of an earlier live database is left. */
  ghost predicate NoSidecars(files: Files) {
    forall role :: Wal(role) !in files && Shm(role) !in files
  }

  lemma PlacingClearsSidecars(w: World, o: Answers)
    requires PlaceBoth(w, o).signal.Fine?
    ensures NoSidecars(PlaceBoth(w, o).world.files)
  {
    var first := PlaceOne(w, o, Main);
    var files := PlaceBoth(w, o).world.files;
    assert Wal(Main) !in files && Shm(Main) !in files;
    assert Wal(Relay) !in files && Shm(Relay) !in files;
    forall role
      ensures Wal(role) !in files && Shm(role) !in files
    {
      if role.Main? { assert Wal(role) == Wal(Main); } else { assert Wal(role) == Wal(Relay); }
    }
  }

  lemma TryingClearsSidecars(w: World, o: Answers, name: Name)
    requires TryMarker(w, o, name).signal.Fine?
    ensures NoSidecars(TryMarker(w, o, name).world.files)
  {
    if Restorable(w.files, name) {
      var g := w.files[Marker(name)].generation;
      TryingRestorable(w, o, name);
      PlacingClearsSidecars(StageBoth(World(w.files, w.clock + 3), o, g).world, o);
    } else {
      TryingUnrestorable(w, o, name);
    }
  }

  lemma {:induction false} ScanClearsSidecars(w: World, o: Answers, names: seq<Name>)
    requires Scan(w, o, names).verdict.Restored?
    ensures NoSidecars(Scan(w, o, names).world.files)
    decreases |names|
  {
    var tried := TryMarker(w, o, names[0]);
    if tried.signal.Fine? {
      TryingClearsSidecars(w, o, names[0]);
    } else {
      ScanClearsSidecars(tried.world, o, names[1..]);
    }
  }

  /**
   * Whatever the answers: a restore that says Restored leaves both live files as
   * copies of one sound generation of an unchanged directory, without stale sidecars;
   * a half-restored pair is refused untouched, and a complete one is left alone.
   */
  lemma RestoredIsOneGeneration(w: World, o: Answers, names: seq<Name>)
    requires Listing(names, w.files)
    ensures var r := Restore(w, o, names);
      && SameDirectory(w.files, r.world.files)
      && (r.verdict.Restored? ==> exists n :: n in names && IsPairOf(r.world.files, w.files, n))
      && (r.verdict.Restored? ==> NoSidecars(r.world.files))
      && (Live(Main) in w.files && Live(Relay) in w.files ==> r == Result(w, NotRestored))
      && ((Live(Main) in w.files) != (Live(Relay) in w.files) ==> r == Result(w, Raised))
  {
    assert names[0..] == names;
    if Live(Main) !in w.files && Live(Relay) !in w.files {
      ScanStaysTraced(w, o, w.files, names, 0);
      if Scan(w, o, names).verdict.Restored? { ScanClearsSidecars(w, o, names); }
    }
  }

  // ---- Mixed pairs ----

  /** Both live files are in place, and they are not of one generation. */
  ghost predicate Mixed(files: Files, dir: Files) {
    Live(Main) in files && Live(Relay) in files && forall n :: !IsPairOf(files, dir, n)
  }

  /** Two generations whose files do not belong together: the main file of the older, the relay file of the newer. */
  ghost predicate Clash(dir: Files, newer: Name, older: Name) {
    && older < newer && Restorable(dir, newer) && Restorable(dir, older)
    && forall n :: Restorable(dir, n) ==>
         !(PairContent(dir, n, Main) == PairContent(dir, older, Main) && PairContent(dir, n, Relay) == PairContent(dir, newer, Relay))
  }

  /** A mixed pair can only come from two clashing generations. */
  lemma MixedNeedsAClash(w: World, o: Answers, names: seq<Name>)
    requires Listing(names, w.files) && Live(Main) !in w.files && Live(Relay) !in w.files
    requires Mixed(Restore(w, o, names).world.files, w.files)
    ensures exists newer, older :: Clash(w.files, newer, older)
  {
    assert names[0..] == names;
    ScanStaysTraced(w, o, w.files, names, 0);
    TracedMixIsAClash(Scan(w, o, names).world.files, w.files, names);
  }

  lemma TracedMixIsAClash(files: Files, dir: Files, names: seq<Name>)
    requires forall i, j :: 0 <= i < j < |names| ==> names[j] < names[i]
    requires Traced(files, dir, names, |names|) && Mixed(files, dir)
    ensures exists newer, older :: Clash(dir, newer, older)
  {
    var b :| 0 <= b < |names| && MainFrom(files, dir, names[b])
             && (Live(Relay) !in files || exists a :: 0 <= a <= b && RelayFrom(files, dir, names[a]));
    var a :| 0 <= a <= b && RelayFrom(files, dir, names[a]);
    ClashFromParts(files, dir, names[a], names[b]);
  }

  lemma ClashFromParts(files: Files, dir: Files, newer: Name, older: Name)
    requires Mixed(files, dir) && older <= newer && MainFrom(files, dir, older) && RelayFrom(files, dir, newer)
    ensures Clash(dir, newer, older)
  {
    assert !IsPairOf(files, dir, newer);
    forall n | Restorable(dir, n)
      ensures !(PairContent(dir, n, Main) == PairContent(dir, older, Main) && PairContent(dir, n, Relay) == PairContent(dir, newer, Relay))
    {
      assert !IsPairOf(files, dir, n);
    }
  }

  /** Answers from `from` up to `to` are all `signal`. */
  ghost predicate Answered(o: Answers, from: nat, to: nat, signal: Signal) {
    forall k :: from <= k < to ==> o(k) == signal
  }

  lemma {:induction false} UnreadMarkersAreSkipped(w: World, o: Answers, names: seq<Name>, k: nat, n: nat)
    requires k + n <= |names| && Answered(o, w.clock, w.clock + n, IoError)
    ensures Scan(w, o, names[k..]) == Scan(World(w.files, w.clock + n), o, names[k + n..])
    decreases n
  {
    if n > 0 {
      assert names[k..][0] == names[k] && names[k..][1..] == names[k + 1..];
      UnreadMarkersAreSkipped(After(w, w.files), o, names, k + 1, n - 1);
    }
  }

  lemma StagingWorks(w: World, o: Answers, g: Name)
    requires Sound(w.files, Snapshot(g, Main)) && Sound(w.files, Snapshot(g, Relay))
    requires Answered(o, w.clock, w.clock + 4, Fine)
    ensures var e := StageBoth(w, o, g); e.signal.Fine? && e.world.clock == w.clock + 4
  {
    var first := StageOne(w, o, g, Main);
    assert first.signal.Fine? && first.world.clock == w.clock + 2;
    assert SameAt(w.files, first.world.files, Snapshot(g, Relay));
  }

  lemma CheckingWorks(w: World, o: Answers, name: Name)
    requires Restorable(w.files, name) && Answered(o, w.clock, w.clock + 3, Fine)
    ensures TryMarker(w, o, name) == RestorePair(World(w.files, w.clock + 3), o, w.files[Marker(name)].generation)
  {
    var g := w.files[Marker(name)].generation;
    CheckingBoth(After(w, w.files), o, g);
    ReadableMarkerIsChecked(w, o, name);
  }

  /** The sidecar of the placed relay file cannot be removed: placing fails with the relay file in place. */
  lemma PlacingStopsAtTheRelaySidecar(w: World, o: Answers)
    requires Staged(Main) in w.files && Staged(Relay) in w.files
    requires Answered(o, w.clock, w.clock + 4, Fine) && o(w.clock + 4).IoError?
    ensures var e := PlaceBoth(w, o);
      e.signal.IoError? && e.world.clock == w.clock + 5 && LiveIs(e.world.files, Relay, w.files[Staged(Relay)])
  {
    var main := PlaceOne(w, o, Main);
    PlacingOneRole(w, o, Main);
    assert SameAt(w.files, main.world.files, Staged(Relay));
    assert main.signal.Fine? && main.world.clock == w.clock + 3;
  }

  lemma PairFailsInPlace(w: World, o: Answers, g: Name)
    requires Sound(w.files, Snapshot(g, Main)) && Sound(w.files, Snapshot(g, Relay))
    requires Answered(o, w.clock, w.clock + 8, Fine) && o(w.clock + 8).IoError? && Answered(o, w.clock + 9, w.clock + 11, Fine)
    ensures var e := RestorePair(w, o, g);
      e.signal.IoError? && e.world.clock == w.clock + 11 && LiveIs(e.world.files, Relay, w.files[Snapshot(g, Relay)])
  {
    StagingWorks(w, o, g);
    StagingKeeps(w, o, g);
    var staged := StageBoth(w, o, g).world;
    PlacingStopsAtTheRelaySidecar(staged, o);
    CleaningKeeps(PlaceBoth(staged, o).world, o);
  }

  function Tick(k: nat): nat {
    k
  }

  /** The same as Answered, stated so that only a named tick brings it to bear. */
  ghost predicate Script(o: Answers, from: nat, to: nat, signal: Signal) {
    forall k :: from <= k < to ==> o(Tick(k)) == signal
  }

  lemma ScriptAnswers(o: Answers, from: nat, to: nat, signal: Signal)
    requires Script(o, from, to, signal)
    ensures Answered(o, from, to, signal)
  {
    forall k | from <= k < to
      ensures o(k) == signal
    {
      assert o(Tick(k)) == signal;
    }
  }

  /** The attempt fails with its whole pair in place. */
  lemma AttemptFailsWithItsPairInPlace(w: World, o: Answers, name: Name)
    requires Restorable(w.files, name)
    requires Script(o, w.clock, w.clock + 11, Fine) && Script(o, w.clock + 11, w.clock + 12, IoError) && Script(o, w.clock + 12, w.clock + 14, Fine)
    ensures var e := TryMarker(w, o, name);
      e.signal.IoError? && e.world.clock == w.clock + 14 && SameDirectory(w.files, e.world.files)
      && RelayFrom(e.world.files, w.files, name)
  {
    var g := w.files[Marker(name)].generation;
    var x := World(w.files, w.clock + 3);
    assert TryMarker(w, o, name) == RestorePair(x, o, g) by {
      ScriptAnswers(o, w.clock, w.clock + 11, Fine);
      CheckingWorks(w, o, name);
    }
    var e := RestorePair(x, o, g);
    assert e.signal.IoError? && e.world.clock == w.clock + 14 && LiveIs(e.world.files, Relay, PairContent(w.files, name, Relay)) by {
      ScriptAnswers(o, w.clock, w.clock + 11, Fine);
      ScriptAnswers(o, w.clock + 11, w.clock + 12, IoError);
      ScriptAnswers(o, w.clock + 12, w.clock + 14, Fine);
      PairFailsInPlace(x, o, g);
    }
    RestoringPairPlaces(x, o, g);
  }

  lemma PairEndsAfterTheMainFile(w: World, o: Answers, g: Name)
    requires Sound(w.files, Snapshot(g, Main)) && Sound(w.files, Snapshot(g, Relay))
    requires Answered(o, w.clock, w.clock + 5, Fine) && o(w.clock + 5).Crashed?
    ensures var e := RestorePair(w, o, g);
      e.signal.Crashed? && LiveIs(e.world.files, Main, w.files[Snapshot(g, Main)]) && SameAt(w.files, e.world.files, Live(Relay))
  {
    StagingWorks(w, o, g);
    StagingKeeps(w, o, g);
    var staged := StageBoth(w, o, g).world;
    var main := PlaceOne(staged, o, Main);
    assert main.signal.Crashed?;
  }

  /** The process ends after the main file was placed. */
  lemma AttemptEndsAfterTheMainFile(w: World, o: Answers, name: Name)
    requires Restorable(w.files, name)
    requires Script(o, w.clock, w.clock + 8, Fine) && Script(o, w.clock + 8, w.clock + 9, Crashed)
    ensures var e := TryMarker(w, o, name);
      e.signal.Crashed? && MainFrom(e.world.files, w.files, name) && SameAt(w.files, e.world.files, Live(Relay))
  {
    var g := w.files[Marker(name)].generation;
    var x := World(w.files, w.clock + 3);
    assert TryMarker(w, o, name) == RestorePair(x, o, g) by {
      ScriptAnswers(o, w.clock, w.clock + 8, Fine);
      CheckingWorks(w, o, name);
    }
    var e := RestorePair(x, o, g);
    assert e.signal.Crashed? && LiveIs(e.world.files, Main, PairContent(w.files, name, Main)) && SameAt(w.files, e.world.files, Live(Relay)) by {
      ScriptAnswers(o, w.clock, w.clock + 8, Fine);
      ScriptAnswers(o, w.clock + 8, w.clock + 9, Crashed);
      PairEndsAfterTheMainFile(x, o, g);
    }
  }

  /** The answers that mix the pair of marker `j` into the pair of marker `i`. */
  function MixingAnswers(i: nat, j: nat): Answers {
    k => if k < i then IoError else if k < i + 11 then Fine else if k == i + 11 then IoError else if k < i + 14 then Fine
         else if k < j + 13 then IoError else if k < j + 21 then Fine else Crashed
  }

  lemma NewerComesFirst(names: seq<Name>, i: nat, j: nat)
    requires forall i, j :: 0 <= i < j < |names| ==> names[j] < names[i]
    requires i < |names| && j < |names| && names[j] < names[i]
    ensures i < j
  {
  }

  /** The newer generation's attempt fails with its pair in place, and the scan goes on. */
  lemma TheNewerIsPlaced(w: World, o: Answers, names: seq<Name>, i: nat) returns (x: World)
    requires i < |names| && Restorable(w.files, names[i])
    requires Script(o, w.clock, w.clock + 11, Fine) && Script(o, w.clock + 11, w.clock + 12, IoError) && Script(o, w.clock + 12, w.clock + 14, Fine)
    ensures x.clock == w.clock + 14 && Scan(w, o, names[i..]) == Scan(x, o, names[i + 1..])
    ensures SameDirectory(w.files, x.files) && RelayFrom(x.files, w.files, names[i])
  {
    assert names[i..][0] == names[i] && names[i..][1..] == names[i + 1..];
    AttemptFailsWithItsPairInPlace(w, o, names[i]);
    x := TryMarker(w, o, names[i]).world;
  }

  lemma SkippedThenPlaced(files: Files, o: Answers, names: seq<Name>, i: nat) returns (x: World)
    requires i < |names| && Restorable(files, names[i])
    requires Script(o, 0, i, IoError) && Script(o, i, i + 11, Fine) && Script(o, i + 11, i + 12, IoError) && Script(o, i + 12, i + 14, Fine)
    ensures x.clock == i + 14 && Scan(World(files, 0), o, names[0..]) == Scan(x, o, names[i + 1..])
    ensures SameDirectory(files, x.files) && RelayFrom(x.files, files, names[i])
  {
    ScriptAnswers(o, 0, i, IoError);
    UnreadMarkersAreSkipped(World(files, 0), o, names, 0, i);
    x := TheNewerIsPlaced(World(files, i), o, names, i);
  }

  /** From there: unread markers, then an attempt that ends after its main file. */
  lemma SkippedThenEnded(x: World, o: Answers, names: seq<Name>, k: nat, j: nat) returns (end: World)
    requires k <= j < |names| && Restorable(x.files, names[j])
    requires Script(o, x.clock, x.clock + (j - k), IoError)
    requires Script(o, x.clock + (j - k), x.clock + (j - k) + 8, Fine) && Script(o, x.clock + (j - k) + 8, x.clock + (j - k) + 9, Crashed)
    ensures Scan(x, o, names[k..]) == Result(end, Ended)
    ensures MainFrom(end.files, x.files, names[j]) && SameAt(x.files, end.files, Live(Relay))
  {
    end := EndedAtTheOlder(World(x.files, x.clock + (j - k)), o, names, j);
    assert Scan(x, o, names[k..]) == Result(end, Ended) by {
      ScriptAnswers(o, x.clock, x.clock + (j - k), IoError);
      UnreadMarkersAreSkipped(x, o, names, k, j - k);
    }
  }

  lemma EndedAtTheOlder(w: World, o: Answers, names: seq<Name>, j: nat) returns (end: World)
    requires j < |names| && Restorable(w.files, names[j])
    requires Script(o, w.clock, w.clock + 8, Fine) && Script(o, w.clock + 8, w.clock + 9, Crashed)
    ensures Scan(w, o, names[j..]) == Result(end, Ended)
    ensures MainFrom(end.files, w.files, names[j]) && SameAt(w.files, end.files, Live(Relay))
  {
    AttemptEndsAfterTheMainFile(w, o, names[j]);
    end := TryMarker(w, o, names[j]).world;
    assert names[j..][0] == names[j];
    EndedAttemptEndsTheScan(w, o, names[j..]);
  }

  lemma EndedAttemptEndsTheScan(w: World, o: Answers, names: seq<Name>)
    requires names != [] && TryMarker(w, o, names[0]).signal.Crashed?
    ensures Scan(w, o, names) == Result(TryMarker(w, o, names[0]).world, Ended)
  {
  }

  lemma MixingEndsMixed(files: Files, o: Answers, names: seq<Name>, i: nat, j: nat) returns (end: World)
    requires i < j < |names| && Clash(files, names[i], names[j])
    requires Script(o, 0, i, IoError) && Script(o, i, i + 11, Fine) && Script(o, i + 11, i + 12, IoError) && Script(o, i + 12, i + 14, Fine)
    requires Script(o, i + 14, j + 13, IoError) && Script(o, j + 13, j + 21, Fine) && Script(o, j + 21, j + 22, Crashed)
    ensures Scan(World(files, 0), o, names[0..]) == Result(end, Ended) && Mixed(end.files, files)
  {
    var x := SkippedThenPlaced(files, o, names, i);
    RestorableElsewhere(files, x.files, names[j]);
    end := SkippedThenEnded(x, o, names, i + 1, j);
    ClashedPartsAreMixed(end.files, files, names[i], names[j]);
  }

  /** Two clashing generations are enough: some answers leave them mixed, and the next restore keeps the mixture. */
  lemma AClashCanMix(files: Files, names: seq<Name>, i: nat, j: nat)
    requires Live(Main) !in files && Live(Relay) !in files
    requires i < j < |names| && Clash(files, names[i], names[j])
    ensures var r := Restore(World(files, 0), MixingAnswers(i, j), names);
      && r.verdict.Ended? && Mixed(r.world.files, files)
      && forall o :: Restore(r.world, o, names) == Result(r.world, NotRestored)
  {
    assert names[0..] == names;
    var end := MixingEndsMixed(files, MixingAnswers(i, j), names, i, j);
  }

  lemma ClashedPartsAreMixed(files: Files, dir: Files, newer: Name, older: Name)
    requires Clash(dir, newer, older) && MainFrom(files, dir, older) && RelayFrom(files, dir, newer)
    ensures Mixed(files, dir)
  {
  }

  /**
   * Exactly when a restore can leave a mixed pair: when the directory holds two
   * clashing restorable generations.
   */
  lemma MixingNeedsExactlyAClash(files: Files, names: seq<Name>)
    requires Listing(names, files) && Live(Main) !in files && Live(Relay) !in files
    ensures (exists o: Answers :: Mixed(Restore(World(files, 0), o, names).world.files, files))
            <==> (exists newer, older :: Clash(files, newer, older))
  {
    if o: Answers :| Mixed(Restore(World(files, 0), o, names).world.files, files) {
      MixedNeedsAClash(World(files, 0), o, names);
    }
    if newer, older :| Clash(files, newer, older) {
      assert newer in names && older in names;
      var i :| 0 <= i < |names| && names[i] == newer;
      var j :| 0 <= j < |names| && names[j] == older;
      NewerComesFirst(names, i, j);
      AClashCanMix(files, names, i, j);
      assert Mixed(Restore(World(files, 0), MixingAnswers(i, j), names).world.files, files);
    }
  }

  // ---- Without I/O errors ----

  ghost predicate NoIoErrors(o: Answers) {
    forall k :: !o(k).IoError?
  }

  lemma WithoutIoErrorsOnlyUnrestorableIsSkipped(w: World, o: Answers, name: Name)
    requires NoIoErrors(o)
    ensures var e := TryMarker(w, o, name);
      && (e.signal.IoError? ==> !Restorable(w.files, name))
      && (e.signal.Fine? ==> Restorable(w.files, name))
  {
    if Restorable(w.files, name) {
      var g := w.files[Marker(name)].generation;
      if o(w.clock).Fine? {
        ReadableMarkerIsChecked(w, o, name);
        CheckedPairNeverFails(After(w, w.files), o, g);
      }
    } else {
      TryingUnrestorable(w, o, name);
    }
  }

  lemma CheckingWithoutIoErrors(w: World, o: Answers, g: Name)
    requires NoIoErrors(o) && Sound(w.files, Snapshot(g, Main)) && Sound(w.files, Snapshot(g, Relay))
    ensures var c := CheckBoth(w, o, g);
      !c.signal.IoError? && (c.signal.Fine? ==> c.sound && c.world == World(w.files, w.clock + 2))
  {
  }

  lemma CheckedPairNeverFails(w: World, o: Answers, g: Name)
    requires NoIoErrors(o) && Sound(w.files, Snapshot(g, Main)) && Sound(w.files, Snapshot(g, Relay))
    ensures !AfterChecks(CheckBoth(w, o, g), o, g).signal.IoError?
  {
    var checked := CheckBoth(w, o, g);
    CheckingWithoutIoErrors(w, o, g);
    if checked.signal.Fine? { PairNeverFailsWithoutIoErrors(checked.world, o, g); }
  }

  lemma PairNeverFailsWithoutIoErrors(w: World, o: Answers, g: Name)
    requires NoIoErrors(o) && Sound(w.files, Snapshot(g, Main)) && Sound(w.files, Snapshot(g, Relay))
    ensures !RestorePair(w, o, g).signal.IoError?
  {
    var staged := StageBoth(w, o, g);
    StagingKeeps(w, o, g);
    var first := StageOne(w, o, g, Main);
    assert !first.signal.IoError?;
    assert SameAt(w.files, first.world.files, Snapshot(g, Relay));
    assert !staged.signal.IoError?;
    if staged.signal.Fine? { PlacingNeverFailsWithoutIoErrors(staged.world, o); }
  }

  lemma PlacingNeverFailsWithoutIoErrors(w: World, o: Answers)
    requires NoIoErrors(o) && Staged(Main) in w.files && Staged(Relay) in w.files
    ensures !PlaceBoth(w, o).signal.IoError?
  {
    PlacingOneRole(w, o, Main);
    assert SameAt(w.files, PlaceOne(w, o, Main).world.files, Staged(Relay));
  }

  /** The newest restorable generation, by its position in the listing. */
  ghost predicate Newest(dir: Files, names: seq<Name>, b: nat) {
    b < |names| && Restorable(dir, names[b]) && forall i :: 0 <= i < b ==> !Restorable(dir, names[i])
  }

  predicate PlacedFrom(dir: Files, r: Result, name: Name)
    requires Restorable(dir, name)
  {
    && Placed(dir, r.world.files, PairContent(dir, name, Main), PairContent(dir, name, Relay))
    && !r.verdict.NotRestored? && (r.verdict.Restored? ==> IsPairOf(r.world.files, dir, name))
  }

  lemma {:induction false} ScanStopsAtTheNewest(w: World, o: Answers, names: seq<Name>, k: nat)
    requires NoIoErrors(o) && k <= |names| && forall i :: 0 <= i < k ==> !Restorable(w.files, names[i])
    ensures var r := Scan(w, o, names[k..]);
      || (SameLive(w.files, r.world.files) && !r.verdict.Restored?
          && (r.verdict.NotRestored? ==> forall i :: 0 <= i < |names| ==> !Restorable(w.files, names[i])))
      || (exists b: nat :: Newest(w.files, names, b) && PlacedFrom(w.files, r, names[b]))
    decreases |names| - k
  {
    if k < |names| {
      assert names[k..][0] == names[k] && names[k..][1..] == names[k + 1..];
      WithoutIoErrorsOnlyUnrestorableIsSkipped(w, o, names[k]);
      TryingPlaces(w, o, names[k]);
      var e := TryMarker(w, o, names[k]);
      if Restorable(w.files, names[k]) {
        assert Newest(w.files, names, k);
        assert PlacedFrom(w.files, Scan(w, o, names[k..]), names[k]);
      } else {
        TryingUnrestorable(w, o, names[k]);
        if e.signal.IoError? { ScanStopsAtTheNewest(e.world, o, names, k + 1); }
      }
    }
  }

  /**
   * Without I/O errors, wherever the process ends: the live pair is absent, or is
   * the main file of the newest restorable generation alone, or is that generation;
   * Restored means the latter, and NotRestored that no generation is restorable.
   */
  lemma WithoutIoErrorsTheNewestIsChosen(w: World, o: Answers, names: seq<Name>)
    requires NoIoErrors(o) && Listing(names, w.files) && Live(Main) !in w.files && Live(Relay) !in w.files
    ensures var r := Restore(w, o, names);
      && (r.verdict.NotRestored? ==> SameLive(w.files, r.world.files) && forall n :: !Restorable(w.files, n))
      && (r.verdict.Restored? ==> exists b: nat :: Newest(w.files, names, b) && IsPairOf(r.world.files, w.files, names[b]))
      && (SameLive(w.files, r.world.files)
          || exists b: nat :: Newest(w.files, names, b)
               && (IsPairOf(r.world.files, w.files, names[b])
                   || (MainFrom(r.world.files, w.files, names[b]) && Live(Relay) !in r.world.files)))
  {
    assert names[0..] == names;
    ScanStopsAtTheNewest(w, o, names, 0);
    assert forall n :: Restorable(w.files, n) ==> n in names;
  }
}

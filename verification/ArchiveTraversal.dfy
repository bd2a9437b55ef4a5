/**
 * Whether a session is archived: a cursor traversal of the archive tool with an
 * 8 MiB byte budget, and a snapshot of the last traversal that answers for three
 * seconds.
 */
module ArchiveTraversal {
  import opened Wrappers
  import opened ArchiveSchema

  const FRESH_SECONDS: real := 3.0
  const PAGE_ROWS: nat := 50

  datatype Row = Row(id: string, kind: string, hostId: string, wellTyped: bool)

  datatype Next = Missing | Malformed | End | Cursor(cursor: string)

  /** One tool result: its text's byte length and what the text parses to. */
  datatype Reply = NoText | Text(bytes: nat, rows: Option<seq<Row>>, next: Next)

  /** The server's answer to the `i`-th request, which carries this cursor. */
  type Server = (nat, Option<string>) -> Reply

  /** An archive that does not change answers by the cursor alone. */
  type Archive = Option<string> -> Reply

  datatype Failure = InvalidResponse | MessageLimit | Deadline

  datatype Answer = Archived | NotArchived | Failed(why: Failure)

  /** `_archive_snapshot`: when the traversal started, what it saw, and whether it saw everything. */
  datatype Snapshot = Snapshot(observed: real, ids: set<string>, complete: bool)

  datatype Inspected = Refused(why: Failure) | Accepted(ids: set<string>, next: Option<string>)

  predicate RowsAllowed(rows: seq<Row>) {
    && |rows| <= PAGE_ROWS
    && forall i :: 0 <= i < |rows| ==> rows[i].wellTyped && 0 < |rows[i].id| <= MAX_MESSAGE
  }

  function LocalIds(rows: seq<Row>): set<string> {
    set i | 0 <= i < |rows| && rows[i].kind == "codex" && rows[i].hostId == "local" :: rows[i].id
  }

  /** The checks of one page; `total` already counts the pages before it. */
  function Inspect(reply: Reply, seen: set<string>, total: nat): Inspected {
    if reply.NoText? then Refused(InvalidResponse)
    else if total + reply.bytes > MAX_DESKTOP_FRAME then Refused(MessageLimit)
    else if reply.bytes == 0 then Refused(MessageLimit)
    else if reply.rows.None? || |reply.rows.value| > PAGE_ROWS then Refused(InvalidResponse)
    else if reply.next.Missing? || reply.next.Malformed? then Refused(InvalidResponse)
    else if reply.next.Cursor? && (reply.next.cursor == "" || |reply.next.cursor| > MAX_MESSAGE || reply.next.cursor in seen)
    then Refused(InvalidResponse)
    else if !RowsAllowed(reply.rows.value) then Refused(InvalidResponse)
    else Accepted(LocalIds(reply.rows.value), if reply.next.End? then None else Some(reply.next.cursor))
  }

  /** A full traversal without early stop: every id it sees, and whether it reaches the end. */
  function Walk(archive: Archive, cursor: Option<string>, seen: set<string>, total: nat): (set<string>, bool)
    requires total <= MAX_DESKTOP_FRAME
    decreases MAX_DESKTOP_FRAME - total
  {
    match Inspect(archive(cursor), seen, total)
    case Refused(_) => ({}, false)
    case Accepted(ids, next) =>
      if next.None? then (ids, true)
      else
        var rest := Walk(archive, next, seen + {next.value}, total + archive(cursor).bytes);
        (ids + rest.0, rest.1)
  }

  function FullIds(archive: Archive): set<string> { Walk(archive, None, {}, 0).0 }

  predicate Traversable(archive: Archive) { Walk(archive, None, {}, 0).1 }

  ghost predicate Serves(server: Server, archive: Archive) {
    forall i: nat, c: Option<string> :: server(i, c) == archive(c)
  }

  /** The snapshot was taken from this archive. */
  ghost predicate TakenFrom(snapshot: Option<Snapshot>, archive: Archive) {
    snapshot.Some? ==>
      && snapshot.value.ids <= FullIds(archive)
      && (snapshot.value.complete ==> Traversable(archive) && snapshot.value.ids == FullIds(archive))
  }

  predicate RequestAllowed(schema: Json, cursor: Option<string>) {
    ArgumentsValid(schema, ServiceArguments(cursor))
  }

  class ArchiveReader {
    /** The tool's schema, as the check it makes of a request with a given cursor. */
    var check: Option<Option<string> -> bool>
    var snapshot: Option<Snapshot>

    constructor (schema: Option<Json>)
      ensures check.Some? <==> schema.Some?
      ensures schema.Some? ==> forall c :: check.value(c) == RequestAllowed(schema.value, c)
      ensures snapshot.None?
    {
      check := if schema.Some? then Some(c => RequestAllowed(schema.value, c)) else None;
      snapshot := None;
    }

    /**
     * `_target_archived`.  It ends for every server, within the byte budget.
     *
     * A verdict is always backed by the snapshot held afterwards, and a negative
     * one by a complete snapshot.  Against an archive unchanged since the
     * snapshot was taken it is the verdict of a full traversal.
     */
    method TargetArchived(session: string, now: real, server: Server,
                          lateBefore: nat -> bool, lateAfter: nat -> bool, ghost archive: Archive)
      returns (r: Answer, ghost pages: nat)
      modifies this`snapshot
      ensures pages <= MAX_DESKTOP_FRAME
      ensures check.None? ==> r == NotArchived && snapshot == old(snapshot)
      ensures check.Some? && r == Archived ==> snapshot.Some? && session in snapshot.value.ids
      ensures check.Some? && r == NotArchived ==>
        snapshot.Some? && snapshot.value.complete && session !in snapshot.value.ids
        && now < snapshot.value.observed + FRESH_SECONDS
      ensures check.Some? && Serves(server, archive) && TakenFrom(old(snapshot), archive) ==>
        && TakenFrom(snapshot, archive)
        && (r == Archived ==> session in FullIds(archive))
        && (r == NotArchived ==> Traversable(archive) && session !in FullIds(archive))
      ensures check.Some? && Serves(server, archive) && Traversable(archive)
        && (forall i: nat :: !lateBefore(i) && !lateAfter(i)) && (forall c :: check.value(c))
        ==> !r.Failed?
      ensures r.Failed? ==> snapshot == old(snapshot)
    {
      pages := 0;
      if check.None? {
        return NotArchived, pages;
      }
      if snapshot.Some? && now < snapshot.value.observed + FRESH_SECONDS {
        if session in snapshot.value.ids {
          return Archived, pages;
        }
        if snapshot.value.complete {
          return NotArchived, pages;
        }
      }
      r, pages := Traverse(session, now, server, lateBefore, lateAfter, archive);
    }

    /** The pages, from the first one on. */
    method Traverse(session: string, now: real, server: Server,
                    lateBefore: nat -> bool, lateAfter: nat -> bool, ghost archive: Archive)
      returns (r: Answer, ghost pages: nat)
      requires check.Some?
      modifies this`snapshot
      ensures pages <= MAX_DESKTOP_FRAME
      ensures !r.Failed? ==>
        && snapshot.Some? && snapshot.value.observed == now
        && (r == Archived <==> session in snapshot.value.ids) && (r == NotArchived ==> snapshot.value.complete)
      ensures r.Failed? ==> snapshot == old(snapshot)
      ensures Serves(server, archive) && !r.Failed? ==>
        && TakenFrom(snapshot, archive)
        && (r == Archived ==> session in FullIds(archive))
        && (r == NotArchived ==> Traversable(archive) && session !in FullIds(archive))
      ensures Serves(server, archive) && Traversable(archive)
        && (forall i: nat :: !lateBefore(i) && !lateAfter(i)) && (forall c :: check.value(c))
        ==> !r.Failed?
    {
      pages := 0;
      var archived: set<string>, seen: set<string>, cursor: Option<string>, total := {}, {}, None, 0;
      var i := 0;
      while true
        invariant pages == i <= total <= MAX_DESKTOP_FRAME
        invariant snapshot == old(snapshot)
        invariant Serves(server, archive) ==>
          var rest := Walk(archive, cursor, seen, total);
          FullIds(archive) == archived + rest.0 && Traversable(archive) == rest.1
        decreases MAX_DESKTOP_FRAME - total
      {
        if !check.value(cursor) {
          return Failed(InvalidResponse), pages;
        }
        if lateBefore(i) {
          return Failed(Deadline), pages;
        }
        var reply := server(i, cursor);
        var page := Inspect(reply, seen, total);
        if page.Refused? {
          return Failed(page.why), pages;
        }
        archived := archived + page.ids;
        total := total + reply.bytes;
        pages := pages + 1;
        if lateAfter(i) {
          return Failed(Deadline), pages;
        }
        if session in archived || page.next.None? {
          snapshot := Some(Snapshot(now, archived, page.next.None?));
          return if session in archived then Archived else NotArchived, pages;
        }
        cursor := page.next;
        seen := seen + {cursor.value};
        i := i + 1;
      }
    }
  }
}

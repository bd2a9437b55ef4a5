/**
 * The readiness marker of the Codex hook: a bounded ring of wake evidence inside
 * a file that is rewritten whole, and that other programs may have written.
 */
module Readiness {
  import opened Wrappers

  const MAX_BYTES := 32768
  const MAX_WAKE_EVENTS := 128
  const MAX_TRANSPORT_MS := 30000

  /** The strings of the vocabulary: stages, failure reasons, transport outcomes. */
  datatype Word =
    | HookStarted | PayloadEmitted | DeliveryAcked | HookFailed | RelayRequestCompleted
    | InvalidScope | RelayUnavailable | MalformedResponse | Empty | EmitFailed | AckFailed | UnexpectedError
    | Response | Unavailable

  /** A JSON value; `Text` is any string outside the vocabulary. */
  datatype Value = Known(word: Word) | Text(text: string) | Number(n: int) | Null | Other

  datatype Key = DeliveryId | Stage | Reason | RecordedAt | Outcome | ElapsedMs | Unexpected(id: nat)

  /** One entry of a stored list, which may be anything. */
  datatype Item = NotObject | Object(fields: map<Key, Value>)

  datatype Event = Event(
    delivery: string, stage: Word, reason: Option<Word>, recordedAt: Value, outcome: Option<Word>, elapsed: Option<int>)

  predicate IsStage(w: Word) {
    w.HookStarted? || w.PayloadEmitted? || w.DeliveryAcked? || w.HookFailed? || w.RelayRequestCompleted?
  }

  predicate IsFailure(w: Word) {
    w.InvalidScope? || w.RelayUnavailable? || w.MalformedResponse? || w.Empty? || w.EmitFailed? || w.AckFailed? || w.UnexpectedError?
  }

  predicate IsOutcome(w: Word) {
    w.Response? || w.Unavailable?
  }

  predicate HexDigit(c: char) {
    '0' <= c <= '9' || 'a' <= c <= 'f'
  }

  predicate IsDelivery(s: string) {
    |s| == 47 && s[..15] == "relay-delivery-" && forall i :: 15 <= i < 47 ==> HexDigit(s[i])
  }

  function WordLength(w: Word): nat {
    match w
    case HookStarted => 12
    case PayloadEmitted => 15
    case DeliveryAcked => 14
    case HookFailed => 11
    case RelayRequestCompleted => 23
    case InvalidScope => 13
    case RelayUnavailable => 17
    case MalformedResponse => 18
    case Empty => 5
    case EmitFailed => 11
    case AckFailed => 10
    case UnexpectedError => 16
    case Response => 8
    case Unavailable => 11
  }

  /** A non-empty string of at most 64 characters without a line break. */
  predicate IsTimestamp(v: Value) {
    match v
    case Known(_) => true
    case Text(t) => 0 < |t| <= 64 && '\n' !in t
    case _ => false
  }

  predicate IsElapsed(v: Value) {
    v.Number? && 0 <= v.n <= MAX_TRANSPORT_MS
  }

  /** What `_wake_events` promises of each event it returns. */
  predicate Good(e: Event) {
    && IsDelivery(e.delivery) && IsStage(e.stage) && IsTimestamp(e.recordedAt)
    && (e.stage.HookFailed? <==> e.reason.Some?) && (e.reason.Some? ==> IsFailure(e.reason.value))
    && (e.stage.RelayRequestCompleted? <==> e.outcome.Some?) && (e.outcome.Some? ==> IsOutcome(e.outcome.value))
    && (e.elapsed.Some? ==> e.stage.RelayRequestCompleted? && 0 <= e.elapsed.value <= MAX_TRANSPORT_MS)
  }

  // ---- Reading one entry ----

  predicate AllowedKeys(f: map<Key, Value>, transport: bool) {
    forall k :: k in f ==> !k.Unexpected? && (k.Outcome? ==> transport)
  }

  function Parse(item: Item): Option<Event> {
    if item.NotObject? then None
    else
      var f := item.fields;
      if !(DeliveryId in f && Stage in f && Reason in f && RecordedAt in f) then None
      else
        var transport := f[Stage] == Known(RelayRequestCompleted);
        if !AllowedKeys(f, transport)
           || !(f[DeliveryId].Text? && IsDelivery(f[DeliveryId].text))
           || !(f[Stage].Known? && IsStage(f[Stage].word))
           || !IsTimestamp(f[RecordedAt])
           || (f[Stage].word.HookFailed? && !(f[Reason].Known? && IsFailure(f[Reason].word)))
           || (!f[Stage].word.HookFailed? && !f[Reason].Null?)
           || (transport && !(Outcome in f && f[Outcome].Known? && IsOutcome(f[Outcome].word)))
        then None
        else Some(Event(
          f[DeliveryId].text, f[Stage].word,
          if f[Stage].word.HookFailed? then Some(f[Reason].word) else None,
          f[RecordedAt],
          if transport then Some(f[Outcome].word) else None,
          if transport && ElapsedMs in f && IsElapsed(f[ElapsedMs]) then Some(f[ElapsedMs].n) else None))
  }

  /** The entry written for an event. */
  function ToItem(e: Event): Item {
    var base := map[DeliveryId := Text(e.delivery), Stage := Known(e.stage),
                    Reason := if e.reason.Some? then Known(e.reason.value) else Null, RecordedAt := e.recordedAt];
    var withOutcome := if e.outcome.Some? then base[Outcome := Known(e.outcome.value)] else base;
    Object(if e.elapsed.Some? then withOutcome[ElapsedMs := Number(e.elapsed.value)] else withOutcome)
  }

  lemma ParsedIsGood(item: Item)
    requires Parse(item).Some?
    ensures Good(Parse(item).value)
  {
  }

  /** Writing a good event and reading it back gives the event. */
  lemma WrittenReadsBack(e: Event)
    requires Good(e)
    ensures Parse(ToItem(e)) == Some(e)
  {
    var f := ToItem(e).fields;
    assert AllowedKeys(f, e.stage.RelayRequestCompleted?);
  }

  // ---- The ring ----

  ghost predicate AllGood(events: seq<Event>) {
    forall i :: 0 <= i < |events| ==> Good(events[i])
  }

  function Last<T>(s: seq<T>, n: nat): seq<T> {
    if |s| <= n then s else s[|s| - n..]
  }

  function ParseAll(items: seq<Item>): seq<Event> {
    if items == [] then []
    else
      var rest := ParseAll(items[..|items| - 1]);
      var last := Parse(items[|items| - 1]);
      if last.Some? then rest + [last.value] else rest
  }

  function ToItems(events: seq<Event>): seq<Item> {
    seq(|events|, i requires 0 <= i < |events| => ToItem(events[i]))
  }

  datatype Evidence = Absent | NotAList | Items(items: seq<Item>)

  /** `_wake_events`: the last 128 readable entries, in order. */
  function WakeEvents(e: Evidence): seq<Event> {
    if e.Items? then Last(ParseAll(e.items), MAX_WAKE_EVENTS) else []
  }

  lemma {:induction false} ParsedAreGood(items: seq<Item>)
    ensures AllGood(ParseAll(items))
    decreases |items|
  {
    if items != [] {
      ParsedAreGood(items[..|items| - 1]);
      if Parse(items[|items| - 1]).Some? { ParsedIsGood(items[|items| - 1]); }
    }
  }

  lemma ParseOneMore(items: seq<Item>, item: Item)
    ensures ParseAll(items + [item]) == ParseAll(items) + (if Parse(item).Some? then [Parse(item).value] else [])
  {
    assert (items + [item])[..|items|] == items;
  }

  lemma OneMoreItem(front: seq<Event>, last: Event)
    ensures ToItems(front + [last]) == ToItems(front) + [ToItem(last)]
  {
  }

  lemma OneMoreReadsBack(front: seq<Event>, last: Event)
    requires ParseAll(ToItems(front)) == front && Good(last)
    ensures ParseAll(ToItems(front + [last])) == front + [last]
  {
    var item := ToItem(last);
    assert Parse(item) == Some(last) by { WrittenReadsBack(last); }
    OneMoreItem(front, last);
    ParseOneMore(ToItems(front), item);
  }

  lemma LastIsGood(events: seq<Event>)
    requires AllGood(events) && events != []
    ensures AllGood(events[..|events| - 1]) && Good(events[|events| - 1])
    ensures events == events[..|events| - 1] + [events[|events| - 1]]
  {
  }

  lemma {:induction false} WrittenListReadsBack(events: seq<Event>)
    requires AllGood(events)
    ensures ParseAll(ToItems(events)) == events
    decreases |events|
  {
    if events != [] {
      var front, last := events[..|events| - 1], events[|events| - 1];
      LastIsGood(events);
      WrittenListReadsBack(front);
      OneMoreReadsBack(front, last);
    }
  }

  /** Filtering what was filtered and written changes nothing, whatever was stored first. */
  lemma FilteringIsIdempotent(stored: Evidence)
    ensures WakeEvents(Items(ToItems(WakeEvents(stored)))) == WakeEvents(stored)
    ensures |WakeEvents(stored)| <= MAX_WAKE_EVENTS
    ensures AllGood(WakeEvents(stored))
  {
    if stored.Items? { ParsedAreGood(stored.items); }
    WrittenListReadsBack(WakeEvents(stored));
  }

  lemma LastOfLast<T>(s: seq<T>, t: seq<T>, n: nat)
    ensures Last(Last(s, n) + t, n) == Last(s + t, n)
  {
  }

  /** The reversed scan that stops at 128 events. */
  method ReadWakeEvents(stored: Evidence) returns (events: seq<Event>)
    ensures events == WakeEvents(stored)
  {
    if !stored.Items? { return []; }
    var raw := stored.items;
    var i := |raw|;
    events := [];
    assert raw[..i] == raw;
    while i > 0
      invariant 0 <= i <= |raw| && |events| < MAX_WAKE_EVENTS
      invariant ParseAll(raw) == ParseAll(raw[..i]) + events
    {
      i := i - 1;
      assert raw[..i + 1] == raw[..i] + [raw[i]];
      ParseOneMore(raw[..i], raw[i]);
      var event := Parse(raw[i]);
      if event.Some? {
        events := [event.value] + events;
        if |events| == MAX_WAKE_EVENTS { return; }
      }
    }
  }

  // ---- The marker ----

  datatype HookState = Unknown | ReviewRequired | Verified

  /** `python` and `script` are the normalised paths. */
  datatype Definition = Definition(python: string, script: string)

  datatype Marker = Marker(
    state: HookState, definition: Definition, observedAt: Option<string>, updatedAt: Option<string>, evidence: Evidence)

  function WrittenEvidence(events: seq<Event>): Evidence {
    if events == [] then Absent else Items(ToItems(events))
  }

  // ---- Encoded sizes ----

  /** UTF-8 bytes of one character inside a JSON string that is not forced to ASCII. */
  function CharBytes(c: char): nat {
    if c == '\"' || c == '\\' || c == '\n' || c == '\r' || c == '\t' || c as int == 8 || c as int == 12 then 2
    else if c as int < 32 then 6
    else if c as int < 128 then 1
    else if c as int < 2048 then 2
    else if c as int < 65536 then 3
    else 4
  }

  function TextBytes(t: string): nat {
    if t == "" then 0 else CharBytes(t[0]) + TextBytes(t[1..])
  }

  predicate Plain(t: string) {
    forall i :: 0 <= i < |t| ==> ' ' <= t[i] <= '~' && t[i] != '\"' && t[i] != '\\'
  }

  lemma {:induction false} PlainBytes(t: string)
    requires Plain(t)
    ensures TextBytes(t) == |t|
    decreases |t|
  {
    if t != "" { PlainBytes(t[1..]); }
  }

  function Digits(n: nat): nat {
    if n < 10 then 1 else 1 + Digits(n / 10)
  }

  function StringBytes(v: Value): nat {
    match v
    case Known(w) => WordLength(w) + 2
    case Text(t) => TextBytes(t) + 2
    case _ => 0
  }

  /** `{"delivery_id":...,"stage":...,"reason":...,"recorded_at":...}` and the two optional fields. */
  function EventBytes(e: Event): nat {
    2 + 14 + (TextBytes(e.delivery) + 2)
    + 9 + (WordLength(e.stage) + 2)
    + 10 + (if e.reason.Some? then WordLength(e.reason.value) + 2 else 4)
    + 15 + StringBytes(e.recordedAt)
    + (if e.outcome.Some? then 11 + WordLength(e.outcome.value) + 2 else 0)
    + (if e.elapsed.Some? && e.elapsed.value >= 0 then 14 + Digits(e.elapsed.value) else 0)
  }

  function EventsBytes(events: seq<Event>): nat {
    if events == [] then 0 else EventsBytes(events[..|events| - 1]) + EventBytes(events[|events| - 1])
  }

  function StateLength(s: HookState): nat {
    match s
    case Unknown => 7
    case ReviewRequired => 15
    case Verified => 8
  }

  function DefinitionBytes(d: Definition): nat {
    (TextBytes(d.python) + 2) + (TextBytes(d.script) + 2)
  }

  /** The whole file of a marker whose evidence is a list of events, with its closing newline. */
  function MarkerBytes(m: Marker, events: seq<Event>): nat {
    13 + 8 + (StateLength(m.state) + 2)
    + 14 + 1 + 9 + 10 + 1 + DefinitionBytes(m.definition)
    + (if m.observedAt.Some? then 15 + TextBytes(m.observedAt.value) + 2 else 0)
    + (if m.updatedAt.Some? then 14 + TextBytes(m.updatedAt.value) + 2 else 0)
    + (if events == [] then 0 else 23 + 2 + EventsBytes(events) + (|events| - 1))
    + 2
  }

  // ---- Operations ----

  /** The arguments of `record_wake_event`, which may be any objects. */
  datatype Report = Report(delivery: Value, stage: Value, reason: Value, outcome: Value, elapsed: Value)

  /** The admission check, and the event an admitted report becomes. */
  function Admit(r: Report, now: string): Option<Event> {
    if !(r.delivery.Text? && IsDelivery(r.delivery.text))
       || !(r.stage.Known? && IsStage(r.stage.word))
       || !(r.reason.Null? || r.reason.Known? || r.reason.Text?)
       || (r.stage.word.HookFailed? && !(r.reason.Known? && IsFailure(r.reason.word)))
       || (!r.stage.word.HookFailed? && !r.reason.Null?)
       || (r.stage.word.RelayRequestCompleted? && !(r.outcome.Known? && IsOutcome(r.outcome.word)))
       || (!r.stage.word.RelayRequestCompleted? && !r.outcome.Null?)
    then None
    else Some(Event(
      r.delivery.text, r.stage.word, if r.reason.Null? then None else Some(r.reason.word), Text(now),
      if r.stage.word.RelayRequestCompleted? then Some(r.outcome.word) else None,
      if r.stage.word.RelayRequestCompleted? && IsElapsed(r.elapsed) then Some(r.elapsed.n) else None))
  }

  /** `datetime.now(timezone.utc).isoformat()` is plain and has at most 32 characters. */
  predicate ClockText(now: string) {
    0 < |now| <= 32 && Plain(now)
  }

  /** Every event that is accepted survives the filter, and nothing of it is changed. */
  lemma AcceptedSurvives(r: Report, now: string)
    requires ClockText(now) && Admit(r, now).Some?
    ensures Good(Admit(r, now).value) && Parse(ToItem(Admit(r, now).value)) == Admit(r, now)
  {
    WrittenReadsBack(Admit(r, now).value);
  }

  /** `stored` is whether the temporary file could be written and moved into place. */
  datatype Op =
    | Record(definition: Definition, report: Report, now: string, stored: bool)
    | Observe(definition: Definition, now: string, stored: bool)
    | Setup(definition: Definition, changed: bool, now: string, stored: bool)
    | Reconcile(definition: Definition, now: string, blanked: bool, installed: Option<bool>, stored: bool)
    | Uninstall(now: string, blanked: bool, removed: bool)

  function Blank(d: Definition, state: HookState, now: string): Marker {
    Marker(state, d, None, Some(now), Absent)
  }

  predicate Kept(current: Option<Marker>, d: Definition, changed: bool) {
    !changed && current.Some? && current.value.definition == d && !current.value.state.Unknown?
  }

  /** `_setup_value`. */
  function SetupValue(current: Option<Marker>, d: Definition, changed: bool, now: string): Marker {
    if Kept(current, d, changed) then current.value else Blank(d, if changed then ReviewRequired else Unknown, now)
  }

  /** `_write`: refused above the limit. */
  function Written(file: Option<Marker>, m: Marker, events: seq<Event>, stored: bool): Option<Marker> {
    if stored && MarkerBytes(m, events) <= MAX_BYTES then Some(m) else file
  }

  function Recorded(current: Marker, e: Event): seq<Event> {
    Last(WakeEvents(current.evidence) + [e], MAX_WAKE_EVENTS)
  }

  /** The file after an operation; a current marker that is kept was within the limit when it was read. */
  function Step(file: Option<Marker>, op: Op): Option<Marker> {
    match op
    case Record(d, report, now, stored) =>
      if Admit(report, now).None? || file.None? || file.value.definition != d then file
      else
        var events := Recorded(file.value, Admit(report, now).value);
        Written(file, file.value.(evidence := WrittenEvidence(events)), events, stored)
    case Observe(d, now, stored) =>
      if file.None? || file.value.definition != d then file
      else
        var events := WakeEvents(file.value.evidence);
        Written(file, Marker(Verified, d, Some(now), Some(now), WrittenEvidence(events)), events, stored)
    case Setup(d, changed, now, stored) =>
      if Kept(file, d, changed) then file else Written(file, SetupValue(file, d, changed, now), [], stored)
    case Reconcile(d, now, blanked, installed, stored) =>
      var blank := Blank(d, Unknown, now);
      if !blanked || MarkerBytes(blank, []) > MAX_BYTES then file
      else if installed.None? then Some(blank)
      else if Kept(file, d, installed.value) then (if stored then file else Some(blank))
      else Written(Some(blank), SetupValue(file, d, installed.value, now), [], stored)
    case Uninstall(now, blanked, removed) =>
      if removed then None
      else if file.Some? then Written(file, Blank(file.value.definition, Unknown, now), [], blanked)
      else file
  }

  function EvidenceOf(file: Option<Marker>): seq<Event> {
    if file.Some? then WakeEvents(file.value.evidence) else []
  }

  /** `record_wake_event` returned true. */
  predicate Accepts(file: Option<Marker>, op: Op) {
    op.Record? && Admit(op.report, op.now).Some? && file.Some? && file.value.definition == op.definition && op.stored
    && MarkerBytes(file.value.(evidence := WrittenEvidence(Recorded(file.value, Admit(op.report, op.now).value))),
                   Recorded(file.value, Admit(op.report, op.now).value)) <= MAX_BYTES
  }

  /** The marker is replaced by one without evidence, or removed. */
  predicate Clears(file: Option<Marker>, op: Op) {
    match op
    case Setup(d, changed, now, stored) =>
      !Kept(file, d, changed) && stored && MarkerBytes(SetupValue(file, d, changed, now), []) <= MAX_BYTES
    case Reconcile(d, now, blanked, installed, stored) =>
      blanked && MarkerBytes(Blank(d, Unknown, now), []) <= MAX_BYTES
      && !(installed.Some? && stored && Kept(file, d, installed.value))
    case Uninstall(now, blanked, removed) =>
      removed || (blanked && file.Some? && MarkerBytes(Blank(file.value.definition, Unknown, now), []) <= MAX_BYTES)
    case _ => false
  }

  /** The events accepted since evidence was last cleared. */
  function History(file: Option<Marker>, history: seq<Event>, op: Op): seq<Event> {
    if Accepts(file, op) then history + [Admit(op.report, op.now).value]
    else if Clears(file, op) then []
    else history
  }

  predicate ClockOf(op: Op) {
    ClockText(op.now)
  }

  lemma WrittenEvidenceReadsBack(events: seq<Event>)
    requires |events| <= MAX_WAKE_EVENTS && AllGood(events)
    ensures WakeEvents(WrittenEvidence(events)) == events
  {
    WrittenListReadsBack(events);
  }

  lemma EvidenceIsGood(file: Option<Marker>)
    ensures |EvidenceOf(file)| <= MAX_WAKE_EVENTS && AllGood(EvidenceOf(file))
  {
    if file.Some? { FilteringIsIdempotent(file.value.evidence); }
  }

  lemma RecordKeepsTheLast(file: Option<Marker>, history: seq<Event>, op: Op)
    requires op.Record? && ClockOf(op) && EvidenceOf(file) == Last(history, MAX_WAKE_EVENTS) && Accepts(file, op)
    ensures EvidenceOf(Step(file, op)) == Last(history + [Admit(op.report, op.now).value], MAX_WAKE_EVENTS)
  {
    RecordingStoresTheEnd(file.value, history, op);
  }

  /** What an admitted report of the current definition writes, and when it is accepted. */
  lemma RecordingStoresTheEnd(m: Marker, history: seq<Event>, op: Op)
    requires op.Record? && ClockOf(op) && Admit(op.report, op.now).Some? && m.definition == op.definition
    requires WakeEvents(m.evidence) == Last(history, MAX_WAKE_EVENTS)
    ensures
      var events := Recorded(m, Admit(op.report, op.now).value);
      var next := m.(evidence := Items(ToItems(events)));
      && (Accepts(Some(m), op) <==> op.stored && MarkerBytes(next, events) <= MAX_BYTES)
      && WakeEvents(next.evidence) == Last(history + [Admit(op.report, op.now).value], MAX_WAKE_EVENTS)
  {
    var e := Admit(op.report, op.now).value;
    EvidenceIsGood(Some(m));
    AcceptedSurvives(op.report, op.now);
    WrittenEvidenceReadsBack(Recorded(m, e));
    LastOfLast(history, [e], MAX_WAKE_EVENTS);
  }

  lemma ObserveKeepsEvidence(file: Option<Marker>, op: Op)
    requires op.Observe?
    ensures EvidenceOf(Step(file, op)) == EvidenceOf(file)
  {
    if file.Some? {
      EvidenceIsGood(file);
      WrittenEvidenceReadsBack(EvidenceOf(file));
    }
  }

  /** One step keeps the evidence the last 128 of the history. */
  lemma StepKeepsTheLast(file: Option<Marker>, history: seq<Event>, op: Op)
    requires ClockOf(op) && EvidenceOf(file) == Last(history, MAX_WAKE_EVENTS)
    ensures EvidenceOf(Step(file, op)) == Last(History(file, history, op), MAX_WAKE_EVENTS)
  {
    if op.Record? && Accepts(file, op) {
      RecordKeepsTheLast(file, history, op);
    } else if op.Observe? {
      ObserveKeepsEvidence(file, op);
    }
  }

  function Run(file: Option<Marker>, ops: seq<Op>): Option<Marker>
    decreases |ops|
  {
    if ops == [] then file else Run(Step(file, ops[0]), ops[1..])
  }

  function HistoryOf(file: Option<Marker>, history: seq<Event>, ops: seq<Op>): seq<Event>
    decreases |ops|
  {
    if ops == [] then history else HistoryOf(Step(file, ops[0]), History(file, history, ops[0]), ops[1..])
  }

  /** After any run over any initial file the evidence is the last 128 events of the history, in order. */
  lemma {:induction false} EvidenceIsTheEndOfTheHistory(file: Option<Marker>, history: seq<Event>, ops: seq<Op>)
    requires EvidenceOf(file) == Last(history, MAX_WAKE_EVENTS) && forall op :: op in ops ==> ClockOf(op)
    ensures EvidenceOf(Run(file, ops)) == Last(HistoryOf(file, history, ops), MAX_WAKE_EVENTS)
    decreases |ops|
  {
    if ops != [] {
      StepKeepsTheLast(file, history, ops[0]);
      EvidenceIsTheEndOfTheHistory(Step(file, ops[0]), History(file, history, ops[0]), ops[1..]);
    }
  }

  // ---- The size limit ----

  /** Written by this module: a clock text, and at most five digits. */
  predicate Small(e: Event) {
    Good(e) && e.recordedAt.Text? && ClockText(e.recordedAt.text)
  }

  lemma DeliveryIsPlain(s: string)
    requires IsDelivery(s)
    ensures Plain(s)
  {
    assert forall i :: 0 <= i < 15 ==> s[i] == s[..15][i];
  }

  lemma SmallBytes(e: Event)
    requires Small(e)
    ensures EventBytes(e) <= 205
  {
    DeliveryIsPlain(e.delivery);
    PlainBytes(e.delivery);
    PlainBytes(e.recordedAt.text);
    if e.elapsed.Some? {
      var n := e.elapsed.value;
      assert Digits(n) <= 5 by { FiveDigits(n); }
    }
  }

  lemma FiveDigits(n: nat)
    requires n < 100000
    ensures Digits(n) <= 5
  {
    var a := n / 10;
    var b := a / 10;
    var c := b / 10;
    assert Digits(c / 10) == 1 && Digits(c) <= 2 && Digits(b) <= 3 && Digits(a) <= 4;
  }

  lemma {:induction false} SmallListBytes(events: seq<Event>)
    requires forall e :: e in events ==> Small(e)
    ensures EventsBytes(events) <= 205 * |events|
    decreases |events|
  {
    if events != [] {
      SmallListBytes(events[..|events| - 1]);
      SmallBytes(events[|events| - 1]);
    }
  }

  predicate SmallTime(t: Option<string>) {
    t.Some? ==> ClockText(t.value)
  }

  /** A marker this module wrote from nothing, for paths of at most 6,000 encoded bytes. */
  predicate Compact(m: Marker) {
    && m.evidence == WrittenEvidence(WakeEvents(m.evidence))
    && (forall e :: e in WakeEvents(m.evidence) ==> Small(e))
    && SmallTime(m.observedAt) && SmallTime(m.updatedAt) && DefinitionBytes(m.definition) <= 6000
  }

  lemma CompactFits(m: Marker, events: seq<Event>)
    requires |events| <= MAX_WAKE_EVENTS && forall e :: e in events ==> Small(e)
    requires SmallTime(m.observedAt) && SmallTime(m.updatedAt) && DefinitionBytes(m.definition) <= 6000
    ensures MarkerBytes(m, events) <= 32564 < MAX_BYTES
  {
    SmallListBytes(events);
    if m.observedAt.Some? { PlainBytes(m.observedAt.value); }
    if m.updatedAt.Some? { PlainBytes(m.updatedAt.value); }
  }

  predicate SmallOp(op: Op) {
    ClockOf(op) && (!op.Uninstall? ==> DefinitionBytes(op.definition) <= 6000)
  }

  lemma WrittenIsCompact(m: Marker, events: seq<Event>)
    requires m.evidence == WrittenEvidence(events) && |events| <= MAX_WAKE_EVENTS && forall e :: e in events ==> Small(e)
    requires SmallTime(m.observedAt) && SmallTime(m.updatedAt) && DefinitionBytes(m.definition) <= 6000
    ensures Compact(m)
  {
    assert AllGood(events) by { assert forall i :: 0 <= i < |events| ==> events[i] in events; }
    WrittenEvidenceReadsBack(events);
  }

  lemma RecordedIsSmall(m: Marker, op: Op)
    requires Compact(m) && op.Record? && ClockOf(op) && Admit(op.report, op.now).Some?
    ensures var events := Recorded(m, Admit(op.report, op.now).value);
      |events| <= MAX_WAKE_EVENTS && forall e :: e in events ==> Small(e)
  {
    AcceptedSurvives(op.report, op.now);
  }

  lemma StepKeepsCompact(file: Option<Marker>, op: Op)
    requires SmallOp(op) && (file.Some? ==> Compact(file.value))
    ensures Step(file, op).Some? ==> Compact(Step(file, op).value)
  {
    if op.Record? && Accepts(file, op) {
      RecordedIsSmall(file.value, op);
      var events := Recorded(file.value, Admit(op.report, op.now).value);
      WrittenIsCompact(file.value.(evidence := WrittenEvidence(events)), events);
    } else if op.Observe? && file.Some? && file.value.definition == op.definition {
      EvidenceIsGood(file);
      var events := EvidenceOf(file);
      WrittenIsCompact(Marker(Verified, op.definition, Some(op.now), Some(op.now), WrittenEvidence(events)), events);
    }
  }

  /** Whether a report is accepted no longer depends on the size of the marker. */
  lemma CompactRecordsAreStored(file: Option<Marker>, op: Op)
    requires SmallOp(op) && op.Record? && (file.Some? ==> Compact(file.value))
    ensures Accepts(file, op) <==>
            (Admit(op.report, op.now).Some? && file.Some? && file.value.definition == op.definition && op.stored)
  {
    if Admit(op.report, op.now).Some? && file.Some? {
      var e := Admit(op.report, op.now).value;
      RecordedIsSmall(file.value, op);
      CompactFits(file.value.(evidence := WrittenEvidence(Recorded(file.value, e))), Recorded(file.value, e));
    }
  }

  /**
   * From no marker, with definition paths of at most 6,000 encoded bytes, every run
   * leaves a file below the limit, and the next report is never refused for size.
   */
  lemma {:induction false} NoReachableMarkerIsTooLarge(file: Option<Marker>, ops: seq<Op>, next: Op)
    requires (file.Some? ==> Compact(file.value)) && (forall op :: op in ops ==> SmallOp(op)) && SmallOp(next) && next.Record?
    ensures var t := Run(file, ops);
      && (t.Some? ==> MarkerBytes(t.value, WakeEvents(t.value.evidence)) <= 32564 < MAX_BYTES)
      && (Accepts(t, next) <==> (Admit(next.report, next.now).Some? && t.Some? && t.value.definition == next.definition && next.stored))
    decreases |ops|
  {
    if ops == [] {
      EvidenceIsGood(file);
      if file.Some? { CompactFits(file.value, WakeEvents(file.value.evidence)); }
      CompactRecordsAreStored(file, next);
    } else {
      StepKeepsCompact(file, ops[0]);
      NoReachableMarkerIsTooLarge(Step(file, ops[0]), ops[1..], next);
    }
  }

  // ---- The file ----

  class MarkerFile {
    var file: Option<Marker>
    ghost var history: seq<Event>

    ghost predicate Valid()
      reads this
    {
      EvidenceOf(file) == Last(history, MAX_WAKE_EVENTS)
    }

    constructor (found: Option<Marker>)
      ensures Valid() && file == found && history == EvidenceOf(found)
    {
      file := found;
      history := EvidenceOf(found);
      new;
      EvidenceIsGood(found);
    }

    method Write(m: Marker, events: seq<Event>, stored: bool) returns (ok: bool)
      modifies `file
      ensures file == Written(old(file), m, events, stored)
      ensures ok == (stored && MarkerBytes(m, events) <= MAX_BYTES)
    {
      ok := stored && MarkerBytes(m, events) <= MAX_BYTES;
      if ok { file := Some(m); }
    }

    /** `record_wake_event`: appended and true, or nothing at all. */
    method RecordWakeEvent(d: Definition, report: Report, now: string, locked: bool, stored: bool) returns (ok: bool)
      requires Valid() && ClockText(now)
      modifies this
      ensures Valid()
      ensures ok ==> locked && Admit(report, now).Some? && history == old(history) + [Admit(report, now).value]
      ensures !ok ==> file == old(file) && history == old(history)
      ensures ok <==> locked && Accepts(old(file), Record(d, report, now, stored))
    {
      var event := Admit(report, now);
      if event.None? || !locked || file.None? || file.value.definition != d { return false; }
      var read := ReadWakeEvents(file.value.evidence);
      var events := read + [event.value];
      if |events| > MAX_WAKE_EVENTS { events := events[|events| - MAX_WAKE_EVENTS..]; }
      RecordingStoresTheEnd(file.value, history, Record(d, report, now, stored));
      ok := Write(file.value.(evidence := Items(ToItems(events))), events, stored);
      if ok { history := history + [event.value]; }
    }

    /** `observe_execution`: the state changes, the evidence does not. */
    method ObserveExecution(d: Definition, now: string, locked: bool, stored: bool) returns (ok: bool)
      requires Valid() && ClockText(now)
      modifies this
      ensures Valid() && history == old(history)
      ensures ok ==> file == Step(old(file), Observe(d, now, stored)) && file.Some? && file.value.state.Verified?
      ensures ok ==> EvidenceOf(file) == EvidenceOf(old(file))
      ensures !ok ==> file == old(file)
    {
      StepKeepsTheLast(file, history, Observe(d, now, stored));
      if !locked || file.None? || file.value.definition != d { return false; }
      var events := ReadWakeEvents(file.value.evidence);
      ok := Write(Marker(Verified, d, Some(now), Some(now), if events == [] then Absent else Items(ToItems(events))), events, stored);
    }

    /** `reconcile_setup`: the marker is blanked before the definition is installed. */
    method ReconcileSetup(d: Definition, now: string, blanked: bool, installed: Option<bool>, stored: bool)
      requires Valid() && ClockText(now)
      modifies this
      ensures Valid() && file == Step(old(file), Reconcile(d, now, blanked, installed, stored))
      ensures history == History(old(file), old(history), Reconcile(d, now, blanked, installed, stored))
    {
      var op := Reconcile(d, now, blanked, installed, stored);
      StepKeepsTheLast(file, history, op);
      history := History(file, history, op);
      var current := file;
      var ok := Write(Blank(d, Unknown, now), [], blanked);
      if ok && installed.Some? {
        if Kept(current, d, installed.value) {
          if stored { file := current; }
        } else {
          var done := Write(SetupValue(current, d, installed.value, now), [], stored);
        }
      }
    }
  }
}

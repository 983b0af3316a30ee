/**
 The hash-chained configuration transcript (`DialogueLog`,
 dsh-autolab/lib/index.js): an append-only file of records, a reader that
 accepts exactly the intact chains, and an incremental resync that may be
 repeated, cut short or fed any prefix of the Session log.

 Digests are any functions; results that need them injective name the two
 records that would collide.
 */
module Dialogue {
  import opened Wrappers

  const ZERO_HASH := 0
  const MAX_SAFE_INTEGER := 0x1F_FFFF_FFFF_FFFF

  /** A JavaScript number. */
  datatype Number = Whole(n: int) | NotWhole(text: string)

  predicate SafeNonNegative(x: Number) { x.Whole? && 0 <= x.n <= MAX_SAFE_INTEGER }

  datatype EventType =
    | UserMessage | AssistantMessage | CommandRun | CommandDone | ToolCall | ToolResult | OtherEvent(name: string)

  datatype Event = Event(eventSeq: nat, time: Number, eventType: EventType, content: string)

  datatype Kind =
    | BeginCreate | UserText | ControllerText | Command | Discovery | ConfigureAction | Acceptance | Rejection

  datatype Source = FromController(session: string) | FromSession(session: string, eventSeq: nat, eventType: EventType)

  datatype Payload = EventPayload(event: Event) | ControllerPayload(text: string)

  /** A record without its own hash. */
  datatype Body = Body(labId: string, sequence: int, timestamp: Number, kind: Kind, source: Source, payload: Payload,
                       relatedRevision: Option<int>, prevHash: int, contentHash: int)

  datatype Record = Record(body: Body, recordHash: int)

  datatype Hashes = Hashes(content: Payload -> int, record: Body -> int)

  datatype Head = Head(sequence: int, recordHash: int, lastEventSeq: Option<nat>)

  datatype Code = Missing | Corrupt | ControllerMismatch | Io

  /** One line of the file; `Malformed` stands for anything `JSON.parse` or the schema refuses as not a record. */
  datatype Line = EmptyLine | Malformed(text: string) | Json(record: Record)

  /** The complete lines, and the text after the last newline if there is any. */
  datatype File = File(lines: seq<Line>, partial: Option<string>)

  // ---- The chain ------------------------------------------------------------------

  function MakeRecord(h: Hashes, labId: string, sequence: int, timestamp: Number, kind: Kind, source: Source,
                      payload: Payload, relatedRevision: Option<int>, prevHash: int): Record
  {
    var body := Body(labId, sequence, timestamp, kind, source, payload, relatedRevision, prevHash, h.content(payload));
    Record(body, h.record(body))
  }

  /** `parseRecord` */
  predicate SchemaOk(record: Record) {
    var b := record.body;
    && 0 < b.sequence <= MAX_SAFE_INTEGER && SafeNonNegative(b.timestamp)
    && (b.relatedRevision.Some? ==> 0 < b.relatedRevision.value <= MAX_SAFE_INTEGER)
    && (b.source.FromSession? ==> b.source.eventSeq <= MAX_SAFE_INTEGER)
  }

  /** `computeRecordHash(record) === record.recordHash` */
  predicate HashOk(h: Hashes, record: Record) {
    record.body.contentHash == h.content(record.body.payload) && record.recordHash == h.record(record.body)
  }

  function TailHash(records: seq<Record>): int {
    if records == [] then ZERO_HASH else records[|records| - 1].recordHash
  }

  /** Every record continues the chain before it. */
  predicate ChainOk(h: Hashes, labId: string, records: seq<Record>) {
    forall i :: 0 <= i < |records| ==>
      && SchemaOk(records[i]) && HashOk(h, records[i]) && records[i].body.labId == labId
      && records[i].body.sequence == i + 1 && records[i].body.prevHash == TailHash(records[..i])
  }

  /** What `read` accepts. */
  predicate Readable(h: Hashes, labId: string, records: seq<Record>) {
    records != [] && ChainOk(h, labId, records)
  }

  /** Every non-empty prefix of a valid log is valid. */
  lemma PrefixIsReadable(h: Hashes, labId: string, records: seq<Record>, n: nat)
    requires Readable(h, labId, records) && 0 < n <= |records|
    ensures Readable(h, labId, records[..n])
  {
  }

  lemma ExtendChain(h: Hashes, labId: string, records: seq<Record>, record: Record)
    requires ChainOk(h, labId, records)
    ensures ChainOk(h, labId, records + [record]) <==>
              && SchemaOk(record) && HashOk(h, record) && record.body.labId == labId
              && record.body.sequence == |records| + 1 && record.body.prevHash == TailHash(records)
  {
    var grown := records + [record];
    assert grown[..|records|] == records;
    forall i | 0 <= i < |records| ensures grown[..i] == records[..i] && grown[i] == records[i] {
    }
    assert grown[|records|] == record;
  }

  ghost predicate Collide(h: Hashes, left: Record, right: Record) {
    left.body != right.body && h.record(left.body) == h.record(right.body)
  }

  /**
   The head hash determines the history: two readable logs with one head hash
   are equal record by record, unless two of their own records collide.
   */
  lemma {:induction false} HeadDeterminesHistory(h: Hashes, labA: string, a: seq<Record>, labB: string, b: seq<Record>)
    requires Readable(h, labA, a) && Readable(h, labB, b) && TailHash(a) == TailHash(b)
    ensures a == b || exists i, j :: 0 <= i < |a| && 0 <= j < |b| && Collide(h, a[i], b[j])
    decreases |a|
  {
    var m, n := |a| - 1, |b| - 1;
    if a[m].body != b[n].body {
      assert Collide(h, a[m], b[n]);
    } else if m > 0 {
      PrefixIsReadable(h, labA, a, m);
      PrefixIsReadable(h, labB, b, n);
      HeadDeterminesHistory(h, labA, a[..m], labB, b[..n]);
      if a[..m] == b[..n] {
        assert a == a[..m] + [a[m]] && b == b[..n] + [b[n]];
      } else {
        var i, j :| 0 <= i < m && 0 <= j < n && Collide(h, a[..m][i], b[..n][j]);
        assert Collide(h, a[i], b[j]);
      }
    } else {
      assert a == [a[0]] && b == [b[0]];
    }
  }

  // ---- Recording Session events --------------------------------------------------------

  predicate IsConfigurationEvent(event: Event) { !event.eventType.OtherEvent? }

  function Classify(event: Event): Kind {
    match event.eventType
    case UserMessage => UserText
    case AssistantMessage => ControllerText
    case CommandRun => Command
    case ToolCall => Discovery
    case ToolResult => Discovery
    case _ => ConfigureAction
  }

  /** The configuration events from `low` on. */
  function Select(events: seq<Event>, low: nat): seq<Event> {
    if events == [] then []
    else
      var last := events[|events| - 1];
      Select(events[..|events| - 1], low) + if last.eventSeq >= low && IsConfigurationEvent(last) then [last] else []
  }

  function EventRecord(h: Hashes, labId: string, session: string, records: seq<Record>, event: Event): Record {
    MakeRecord(h, labId, |records| + 1, event.time, Classify(event),
               FromSession(session, event.eventSeq, event.eventType), EventPayload(event), None, TailHash(records))
  }

  /** The log after recording the events one by one. */
  function Recorded(h: Hashes, labId: string, session: string, records: seq<Record>, events: seq<Event>)
    : (grown: seq<Record>)
    ensures |grown| == |records| + |events| && records <= grown
  {
    if events == [] then records
    else
      var before := Recorded(h, labId, session, records, events[..|events| - 1]);
      before + [EventRecord(h, labId, session, before, events[|events| - 1])]
  }

  /** The Session events a log holds, in order. */
  function EventsOf(records: seq<Record>): seq<Event> {
    if records == [] then []
    else
      var last := records[|records| - 1].body;
      EventsOf(records[..|records| - 1])
      + if last.source.FromSession? && last.payload.EventPayload? then [last.payload.event] else []
  }

  function LastEventSeq(records: seq<Record>): Option<nat> {
    if records == [] then None
    else if records[|records| - 1].body.source.FromSession? then Some(records[|records| - 1].body.source.eventSeq)
    else LastEventSeq(records[..|records| - 1])
  }

  function LowerBound(fromSeq: nat, records: seq<Record>): nat {
    match LastEventSeq(records)
    case None => fromSeq
    case Some(last) => if fromSeq > last + 1 then fromSeq else last + 1
  }

  /** What one resync adds. */
  function Additions(fromSeq: nat, records: seq<Record>, events: seq<Event>): seq<Event> {
    Select(events, LowerBound(fromSeq, records))
  }

  predicate Increasing(events: seq<Event>) {
    forall i, j :: 0 <= i < j < |events| ==> events[i].eventSeq < events[j].eventSeq
  }

  /** Session records carry their own event. */
  predicate SourcesAgree(records: seq<Record>) {
    forall r :: r in records && r.body.source.FromSession? ==>
      r.body.payload.EventPayload? && r.body.payload.event.eventSeq == r.body.source.eventSeq
  }

  lemma {:induction false} RecordedHolds(h: Hashes, labId: string, session: string, records: seq<Record>, events: seq<Event>)
    requires SourcesAgree(records)
    ensures var grown := Recorded(h, labId, session, records, events);
            SourcesAgree(grown) && EventsOf(grown) == EventsOf(records) + events
  {
    if events != [] {
      var n := |events| - 1;
      RecordedHolds(h, labId, session, records, events[..n]);
      var before := Recorded(h, labId, session, records, events[..n]);
      var grown := before + [EventRecord(h, labId, session, before, events[n])];
      assert grown[..|grown| - 1] == before;
      assert events == events[..n] + [events[n]];
    } else {
      assert EventsOf(records) + events == EventsOf(records);
    }
  }

  /** The head's last event seq is that of the last recorded event. */
  lemma {:induction false} LastSeqIsLastEvent(records: seq<Record>)
    requires SourcesAgree(records)
    ensures LastEventSeq(records)
            == if EventsOf(records) == [] then None else Some(EventsOf(records)[|EventsOf(records)| - 1].eventSeq)
  {
    if records != [] {
      LastSeqIsLastEvent(records[..|records| - 1]);
    }
  }

  lemma {:induction false} SelectMember(events: seq<Event>, low: nat, e: Event)
    ensures e in Select(events, low) <==> e in events && e.eventSeq >= low && IsConfigurationEvent(e)
  {
    if events != [] {
      var n := |events| - 1;
      SelectMember(events[..n], low, e);
      assert events == events[..n] + [events[n]];
    }
  }

  lemma {:induction false} SelectIsIncreasing(events: seq<Event>, low: nat)
    requires Increasing(events)
    ensures Increasing(Select(events, low))
  {
    if events != [] {
      var n := |events| - 1;
      SelectIsIncreasing(events[..n], low);
      var front := Select(events[..n], low);
      forall k | 0 <= k < |front| ensures front[k].eventSeq < events[n].eventSeq {
        SelectMember(events[..n], low, front[k]);
        var i :| 0 <= i < n && events[..n][i] == front[k];
      }
    }
  }

  lemma {:induction false} SelectEmpty(events: seq<Event>, bound: nat)
    requires forall i :: 0 <= i < |events| && IsConfigurationEvent(events[i]) ==> events[i].eventSeq < bound
    ensures Select(events, bound) == []
  {
    if events != [] {
      SelectEmpty(events[..|events| - 1], bound);
    }
  }

  /** One past the last recorded event. */
  function Resume(done: seq<Event>): nat
    requires done != []
  {
    done[|done| - 1].eventSeq + 1
  }

  /** Nothing up to the recorded prefix is left over. */
  lemma NothingLeft(events: seq<Event>, low: nat, q: nat, p: nat)
    requires Increasing(events) && p <= q <= |events| && Select(events[..q], low) != []
    ensures Select(events[..p], Resume(Select(events[..q], low))) == []
  {
    var done := Select(events[..q], low);
    SelectIsIncreasing(events[..q], low);
    SelectMember(events[..q], low, done[|done| - 1]);
    forall i | 0 <= i < p && IsConfigurationEvent(events[i]) ensures events[i].eventSeq < Resume(done) {
      SelectMember(events[..q], low, events[i]);
      assert events[..q][i] == events[i];
      if events[i] in done {
        var k :| 0 <= k < |done| && done[k] == events[i];
      }
    }
    SelectEmpty(events[..p], Resume(done));
  }

  /** Having recorded up to `q`, what is left of a longer prefix is what lies past the last recorded event. */
  lemma {:induction false} SelectResumes(events: seq<Event>, low: nat, q: nat, p: nat)
    requires Increasing(events) && q <= p <= |events| && Select(events[..q], low) != []
    ensures var done := Select(events[..q], low);
            Select(events[..p], low) == done + Select(events[..p], Resume(done))
    decreases p
  {
    var done := Select(events[..q], low);
    if p == q {
      NothingLeft(events, low, q, p);
    } else {
      SelectResumes(events, low, q, p - 1);
      SelectMember(events[..q], low, done[|done| - 1]);
      var i :| 0 <= i < q && events[..q][i] == done[|done| - 1];
      assert events[i].eventSeq < events[p - 1].eventSeq;
      assert events[..p][..p - 1] == events[..p - 1];
    }
  }

  /** A cut of a selection is the selection of a shorter prefix. */
  lemma {:induction false} CutIsSelection(events: seq<Event>, low: nat, p: nat, k: nat) returns (q: nat)
    requires p <= |events| && k <= |Select(events[..p], low)|
    ensures q <= p && Select(events[..q], low) == Select(events[..p], low)[..k]
  {
    if k == |Select(events[..p], low)| {
      q := p;
    } else {
      assert events[..p][..p - 1] == events[..p - 1];
      assert k <= |Select(events[..p - 1], low)|;
      q := CutIsSelection(events, low, p - 1, k);
    }
  }

  function Max(a: nat, b: nat): nat { if a < b then b else a }

  lemma LowerBoundIsResume(fromSeq: nat, records: seq<Record>, events: seq<Event>, q: nat)
    requires SourcesAgree(records) && q <= |events| && EventsOf(records) == Select(events[..q], fromSeq)
    ensures LowerBound(fromSeq, records) == if EventsOf(records) == [] then fromSeq else Resume(EventsOf(records))
  {
    LastSeqIsLastEvent(records);
    if EventsOf(records) != [] {
      SelectMember(events[..q], fromSeq, EventsOf(records)[|EventsOf(records)| - 1]);
    }
  }

  /** One resync: from having recorded prefix `q` to having recorded the longer of `q` and `p`. */
  lemma ResyncExtends(fromSeq: nat, records: seq<Record>, events: seq<Event>, q: nat, p: nat)
    requires SourcesAgree(records) && Increasing(events) && q <= |events| && p <= |events|
    requires EventsOf(records) == Select(events[..q], fromSeq)
    ensures EventsOf(records) + Additions(fromSeq, records, events[..p]) == Select(events[..Max(q, p)], fromSeq)
  {
    hide Select, EventsOf, LowerBound, Resume, Increasing, SourcesAgree;
    LowerBoundIsResume(fromSeq, records, events, q);
    var done := EventsOf(records);
    if done == [] {
      if p <= q {
        SelectOfPrefix(events, fromSeq, p, q);
      }
    } else if q <= p {
      SelectResumes(events, fromSeq, q, p);
    } else {
      NothingLeft(events, fromSeq, q, p);
      assert done + [] == done;
    }
  }

  lemma {:induction false} SelectOfPrefix(events: seq<Event>, low: nat, p: nat, q: nat)
    requires p <= q <= |events|
    ensures Select(events[..p], low) <= Select(events[..q], low)
  {
    if p < q {
      SelectOfPrefix(events, low, p, q - 1);
      assert events[..q][..q - 1] == events[..q - 1];
    }
  }

  // ---- Runs of resyncs -------------------------------------------------------------------

  /**
   One step of the log's life: a resync on a prefix of the Session log, of whose
   additions only the first `kept` reached the file, or a Controller record.
   */
  datatype Op = Resync(prefix: nat, kept: nat) | ControllerRecord(record: Record)

  /** A resync sees at most the first `p` events; a Controller record is the Controller's. */
  predicate OpOk(p: nat, op: Op) {
    match op
    case Resync(prefix, _) => prefix <= p
    case ControllerRecord(record) => record.body.source.FromController?
  }

  predicate OpsOk(p: nat, ops: seq<Op>) {
    forall i :: 0 <= i < |ops| ==> OpOk(p, ops[i])
  }

  function Apply(h: Hashes, labId: string, session: string, fromSeq: nat, events: seq<Event>, records: seq<Record>, op: Op)
    : seq<Record>
    requires OpOk(|events|, op)
  {
    match op
    case Resync(prefix, kept) =>
      var additions := Additions(fromSeq, records, events[..prefix]);
      Recorded(h, labId, session, records, if kept < |additions| then additions[..kept] else additions)
    case ControllerRecord(record) => records + [record]
  }

  function ApplyAll(h: Hashes, labId: string, session: string, fromSeq: nat, events: seq<Event>, records: seq<Record>,
                    ops: seq<Op>): seq<Record>
    requires OpsOk(|events|, ops)
  {
    if ops == [] then records
    else
      Apply(h, labId, session, fromSeq, events,
            ApplyAll(h, labId, session, fromSeq, events, records, ops[..|ops| - 1]), ops[|ops| - 1])
  }

  lemma ApplyHolds(h: Hashes, labId: string, session: string, fromSeq: nat, events: seq<Event>, records: seq<Record>,
                   q: nat, p: nat, op: Op) returns (r: nat)
    requires q <= p <= |events| && OpOk(p, op) && SourcesAgree(records) && Increasing(events)
    requires EventsOf(records) == Select(events[..q], fromSeq)
    ensures r <= p
    ensures var t := Apply(h, labId, session, fromSeq, events, records, op);
            SourcesAgree(t) && EventsOf(t) == Select(events[..r], fromSeq)
  {
    hide Select, Increasing, Recorded, LowerBound;
    match op
    case ControllerRecord(record) =>
      r := q;
      assert (records + [record])[..|records|] == records;
    case Resync(prefix, kept) =>
      var additions := Additions(fromSeq, records, events[..prefix]);
      var written := if kept < |additions| then additions[..kept] else additions;
      ResyncExtends(fromSeq, records, events, q, prefix);
      RecordedHolds(h, labId, session, records, written);
      assert EventsOf(records) + written == (EventsOf(records) + additions)[..|EventsOf(records)| + |written|];
      r := CutIsSelection(events, fromSeq, Max(q, prefix), |EventsOf(records)| + |written|);
  }

  lemma {:induction false} RunHolds(h: Hashes, labId: string, session: string, fromSeq: nat, events: seq<Event>,
                                    records: seq<Record>, p: nat, ops: seq<Op>) returns (q: nat)
    requires p <= |events| && OpsOk(p, ops) && OpsOk(|events|, ops)
    requires SourcesAgree(records) && EventsOf(records) == [] && Increasing(events)
    ensures q <= p
    ensures var t := ApplyAll(h, labId, session, fromSeq, events, records, ops);
            SourcesAgree(t) && EventsOf(t) == Select(events[..q], fromSeq)
  {
    if ops == [] {
      q := 0;
      assert events[..0] == [];
    } else {
      hide Select, Increasing, EventsOf, SourcesAgree, Apply;
      var n := |ops| - 1;
      assert OpOk(p, ops[n]);
      var before := RunHolds(h, labId, session, fromSeq, events, records, p, ops[..n]);
      q := ApplyHolds(h, labId, session, fromSeq, events,
                      ApplyAll(h, labId, session, fromSeq, events, records, ops[..n]), before, p, ops[n]);
    }
  }

  /**
   Resync is canonical: after any sequence of resyncs on prefixes, each possibly
   cut at a record boundary, and of Controller records, a resync on a prefix
   at least as long records exactly what a single resync would have, and no
   event twice.
   */
  lemma ResyncIsCanonical(h: Hashes, labId: string, session: string, fromSeq: nat, events: seq<Event>,
                          records: seq<Record>, ops: seq<Op>, p: nat)
    requires SourcesAgree(records) && EventsOf(records) == [] && Increasing(events)
    requires p <= |events| && OpsOk(p, ops) && OpsOk(|events|, ops)
    ensures var before := ApplyAll(h, labId, session, fromSeq, events, records, ops);
            var t := Recorded(h, labId, session, before, Additions(fromSeq, before, events[..p]));
            var once := Recorded(h, labId, session, records, Additions(fromSeq, records, events[..p]));
            && EventsOf(t) == EventsOf(once) == Select(events[..p], fromSeq)
            && Increasing(EventsOf(t))
  {
    assert Select(events[..0], fromSeq) == [];
    assert Increasing(events[..p]);
    hide Select, Increasing, EventsOf, SourcesAgree, Apply, ApplyAll, Recorded, Additions;
    var before := ApplyAll(h, labId, session, fromSeq, events, records, ops);
    var q := RunHolds(h, labId, session, fromSeq, events, records, p, ops);
    ResyncExtends(fromSeq, before, events, q, p);
    RecordedHolds(h, labId, session, before, Additions(fromSeq, before, events[..p]));
    ResyncExtends(fromSeq, records, events, 0, p);
    RecordedHolds(h, labId, session, records, Additions(fromSeq, records, events[..p]));
    SelectIsIncreasing(events[..p], fromSeq);
  }

  /**
   An appended log is readable exactly when every event it added has a time and
   a seq that are safe non-negative integers (and the count stays one).
   */
  lemma {:induction false} RecordedIsReadable(h: Hashes, labId: string, session: string, records: seq<Record>,
                                              events: seq<Event>)
    requires Readable(h, labId, records)
    ensures Readable(h, labId, Recorded(h, labId, session, records, events)) <==>
              && (forall e :: e in events ==> SafeNonNegative(e.time) && e.eventSeq <= MAX_SAFE_INTEGER)
              && (events != [] ==> |records| + |events| <= MAX_SAFE_INTEGER)
  {
    if events != [] {
      var n := |events| - 1;
      RecordedIsReadable(h, labId, session, records, events[..n]);
      var before := Recorded(h, labId, session, records, events[..n]);
      var record := EventRecord(h, labId, session, before, events[n]);
      assert events == events[..n] + [events[n]];
      var grown := before + [record];
      assert grown[..|before|] == before;
      if ChainOk(h, labId, grown) {
        PrefixIsReadable(h, labId, grown, |before|);
      }
      if ChainOk(h, labId, before) {
        ExtendChain(h, labId, before, record);
      }
    }
  }

  /** What kind of record an event becomes, by its type. */
  function RecordedKind(eventType: EventType): Kind {
    if eventType == UserMessage then UserText
    else if eventType == AssistantMessage then ControllerText
    else if eventType == CommandRun then Command
    else if eventType in {ToolCall, ToolResult} then Discovery
    else ConfigureAction
  }

  /** `grown[k]` is the event's own record: kind, time, source and payload, continuing the chain before it. */
  predicate Carries(h: Hashes, labId: string, session: string, grown: seq<Record>, k: nat, e: Event) {
    && k < |grown|
    && var b := grown[k].body;
       && b.labId == labId && b.sequence == k + 1 && b.timestamp == e.time && b.kind == RecordedKind(e.eventType)
       && b.source == FromSession(session, e.eventSeq, e.eventType) && b.payload == EventPayload(e)
       && b.relatedRevision.None? && b.prevHash == TailHash(grown[..k]) && HashOk(h, grown[k])
  }

  /** Recording adds one record per event, in order, each carrying exactly its event. */
  lemma {:induction false} RecordsCarryTheirEvents(h: Hashes, labId: string, session: string, records: seq<Record>,
                                                   events: seq<Event>)
    ensures var grown := Recorded(h, labId, session, records, events);
            forall i :: 0 <= i < |events| ==> Carries(h, labId, session, grown, |records| + i, events[i])
  {
    if events != [] {
      var n := |events| - 1;
      RecordsCarryTheirEvents(h, labId, session, records, events[..n]);
      var before := Recorded(h, labId, session, records, events[..n]);
      var grown := Recorded(h, labId, session, records, events);
      forall i | 0 <= i < |events| ensures Carries(h, labId, session, grown, |records| + i, events[i]) {
        assert grown[..|records| + i] == before[..|records| + i];
        if i < n {
          assert Carries(h, labId, session, before, |records| + i, events[..n][i]);
        }
      }
    }
  }

  /**
   A resync adds exactly the configuration events that are not older than its
   start and newer than the last recorded one, in their order.
   */
  lemma AddsExactlyTheMissing(fromSeq: nat, records: seq<Record>, events: seq<Event>, e: Event)
    ensures e in Additions(fromSeq, records, events) <==>
              && e in events && !e.eventType.OtherEvent? && e.eventSeq >= fromSeq
              && (LastEventSeq(records).Some? ==> e.eventSeq > LastEventSeq(records).value)
    ensures Increasing(events) ==> Increasing(Additions(fromSeq, records, events))
  {
    SelectMember(events, LowerBound(fromSeq, records), e);
    if Increasing(events) {
      SelectIsIncreasing(events, LowerBound(fromSeq, records));
    }
  }

  // ---- The log over its mutable files -----------------------------------------------------

  function RecordsOf(lines: seq<Line>): seq<Record> {
    if lines == [] then []
    else RecordsOf(lines[..|lines| - 1]) + if lines[|lines| - 1].Json? then [lines[|lines| - 1].record] else []
  }

  predicate NoneMalformed(lines: seq<Line>) {
    forall i :: 0 <= i < |lines| ==> !lines[i].Malformed?
  }

  /** The file holds exactly these records and ends with a newline. */
  predicate Intact(h: Hashes, labId: string, file: File) {
    file.partial.None? && file.lines != [] && NoneMalformed(file.lines) && Readable(h, labId, RecordsOf(file.lines))
  }

  function HeadOf(records: seq<Record>): Head
    requires records != []
  {
    var last := records[|records| - 1];
    Head(last.body.sequence, last.recordHash, LastEventSeq(records))
  }

  /** Each record as one JSON line. */
  function Lines(records: seq<Record>): (lines: seq<Line>)
    ensures |lines| == |records| && forall i :: 0 <= i < |records| ==> lines[i] == Json(records[i])
  {
    seq(|records|, i requires 0 <= i < |records| => Json(records[i]))
  }

  lemma {:induction false} RecordsOfPrefix(lines: seq<Line>, n: nat)
    requires n <= |lines|
    ensures RecordsOf(lines[..n]) <= RecordsOf(lines)
  {
    if n < |lines| {
      RecordsOfPrefix(lines[..|lines| - 1], n);
      assert lines[..|lines| - 1][..n] == lines[..n];
    } else {
      assert lines[..n] == lines;
    }
  }

  lemma {:induction false} RecordsOfAppended(lines: seq<Line>, records: seq<Record>)
    ensures RecordsOf(lines + Lines(records)) == RecordsOf(lines) + records
  {
    if records == [] {
      assert lines + Lines(records) == lines;
    } else {
      var n := |records| - 1;
      RecordsOfAppended(lines, records[..n]);
      var grown := lines + Lines(records);
      assert grown[..|grown| - 1] == lines + Lines(records[..n]);
      assert records == records[..n] + [records[n]];
    }
  }

  lemma RecordsOfStep(lines: seq<Line>, i: nat)
    requires i < |lines|
    ensures RecordsOf(lines[..i + 1]) == RecordsOf(lines[..i]) + if lines[i].Json? then [lines[i].record] else []
    ensures NoneMalformed(lines[..i + 1]) <==> NoneMalformed(lines[..i]) && !lines[i].Malformed?
  {
    assert lines[..i + 1][..i] == lines[..i];
  }

  /** The log `initialize` writes is readable exactly when its time is a safe integer. */
  lemma FirstRecordIsReadable(h: Hashes, labId: string, session: string, timestamp: Number, payload: string)
    ensures var first := MakeRecord(h, labId, 1, timestamp, BeginCreate, FromController(session),
                                    ControllerPayload(payload), None, ZERO_HASH);
            && RecordsOf([Json(first)]) == [first] && EventsOf([first]) == [] && SourcesAgree([first])
            && (Intact(h, labId, File([Json(first)], None)) <==> SafeNonNegative(timestamp))
  {
  }

  /** The numbers a record may hold: JavaScript's safe integers, positive where they count, and whole. */
  lemma SchemaExactly(record: Record)
    ensures var b := record.body;
            SchemaOk(record) <==>
              && 1 <= b.sequence < 0x20_0000_0000_0000
              && b.timestamp.Whole? && 0 <= b.timestamp.n < 0x20_0000_0000_0000
              && (b.relatedRevision.None? || 1 <= b.relatedRevision.value < 0x20_0000_0000_0000)
              && (b.source.FromController? || b.source.eventSeq < 0x20_0000_0000_0000)
  {
  }

  /** A file that ends inside a record, or holds a line that is none, is not readable. */
  lemma CutFileIsUnreadable(h: Hashes, labId: string, file: File)
    requires file.partial.Some? || (exists i :: 0 <= i < |file.lines| && file.lines[i].Malformed?) || RecordsOf(file.lines) == []
    ensures !Intact(h, labId, file)
  {
  }

  /** A record that does not continue the chain makes the whole file unreadable. */
  lemma BrokenPrefix(h: Hashes, labId: string, lines: seq<Line>, i: nat)
    requires i < |lines| && lines[i].Json? && ChainOk(h, labId, RecordsOf(lines[..i]))
    requires !ChainOk(h, labId, RecordsOf(lines[..i]) + [lines[i].record])
    ensures !Readable(h, labId, RecordsOf(lines))
  {
    hide ChainOk, RecordsOf, NoneMalformed;
    RecordsOfPrefix(lines, i + 1);
    RecordsOfStep(lines, i);
    var prefix := RecordsOf(lines[..i]) + [lines[i].record];
    assert prefix == RecordsOf(lines)[..|prefix|];
    if Readable(h, labId, RecordsOf(lines)) {
      PrefixIsReadable(h, labId, RecordsOf(lines), |prefix|);
    }
  }

  lemma EmptyChain(h: Hashes, labId: string)
    ensures ChainOk(h, labId, []) && RecordsOf([]) == []
  {
  }

  lemma ChainLength(h: Hashes, labId: string, records: seq<Record>)
    requires ChainOk(h, labId, records)
    ensures records != [] ==> records[|records| - 1].body.sequence == |records|
  {
  }

  class DialogueLog {
    const h: Hashes
    var files: map<string, File>

    constructor (h: Hashes)
      ensures this.h == h && files == map[]
    {
      this.h, this.files := h, map[];
    }

    /** The reader accepts exactly the intact files and returns their records. */
    method Read(labId: string) returns (r: Result<seq<Record>, Code>)
      ensures labId !in files ==> r == Err(Missing)
      ensures labId in files ==>
                r == if Intact(h, labId, files[labId]) then Ok(RecordsOf(files[labId].lines)) else Err(Corrupt)
    {
      hide RecordsOf, HashOk, SchemaOk, ChainOk;
      if labId !in files {
        return Err(Missing);
      }
      var file := files[labId];
      EmptyChain(h, labId);
      if file.partial.Some? || file.lines == [] {
        return Err(Corrupt);
      }
      var records: seq<Record> := [];
      for i := 0 to |file.lines|
        invariant NoneMalformed(file.lines[..i])
        invariant records == RecordsOf(file.lines[..i]) && ChainOk(h, labId, records)
      {
        RecordsOfStep(file.lines, i);
        if file.lines[i].Malformed? {
          return Err(Corrupt);
        }
        if file.lines[i].Json? {
          var record := file.lines[i].record;
          ExtendChain(h, labId, records, record);
          ChainLength(h, labId, records);
          var sequence, prevHash := 1, ZERO_HASH;
          if records != [] {
            sequence := records[|records| - 1].body.sequence + 1;
            prevHash := records[|records| - 1].recordHash;
          }
          if !SchemaOk(record) || record.body.labId != labId || record.body.sequence != sequence
             || record.body.prevHash != prevHash || !HashOk(h, record) {
            BrokenPrefix(h, labId, file.lines, i);
            return Err(Corrupt);
          }
          records := records + [record];
        }
      }
      assert file.lines[..|file.lines|] == file.lines;
      if records == [] {
        return Err(Corrupt);
      }
      r := Ok(records);
    }

    /** `headOf`: the backward search for the last Session event. */
    method FindHead(records: seq<Record>) returns (head: Head)
      requires records != []
      ensures head == HeadOf(records)
    {
      var lastEventSeq: Option<nat> := None;
      var index := |records|;
      assert records[..index] == records;
      while index > 0
        invariant 0 <= index <= |records| && lastEventSeq.None?
        invariant LastEventSeq(records) == LastEventSeq(records[..index])
      {
        index := index - 1;
        assert records[..index + 1][..index] == records[..index];
        var source := records[index].body.source;
        if source.FromSession? {
          lastEventSeq := Some(source.eventSeq);
          break;
        }
      }
      head := Head(records[|records| - 1].body.sequence, records[|records| - 1].recordHash, lastEventSeq);
    }

    /** Appending may stop after any record, or inside one. */
    method AppendLines(labId: string, records: seq<Record>) returns (ok: bool)
      requires labId in files && files[labId].partial.None?
      modifies this
      ensures labId in files && files == old(files)[labId := files[labId]]
      ensures ok ==> files[labId] == File(old(files)[labId].lines + Lines(records), None)
      ensures !ok ==> exists k :: 0 <= k <= |records| && files[labId].lines == old(files)[labId].lines + Lines(records[..k])
    {
      var lines := files[labId].lines;
      var stop: bool := *;
      var torn: Option<string> := *;
      if stop {
        var kept: nat :| kept <= |records|;
        files := files[labId := File(lines + Lines(records[..kept]), if kept < |records| then torn else None)];
        return false;
      }
      files := files[labId := File(lines + Lines(records), None)];
      ok := true;
    }

    /** `initialize` never replaces a log. */
    method Initialize(labId: string, session: string, timestamp: Number, payload: string) returns (r: Result<Head, Code>)
      modifies this
      ensures labId in old(files) ==> r == Err(Io) && files == old(files)
      ensures labId !in old(files) ==>
                && r.Ok? && labId in files && files == old(files)[labId := files[labId]]
                && RecordsOf(files[labId].lines)
                   == [MakeRecord(h, labId, 1, timestamp, BeginCreate, FromController(session),
                                  ControllerPayload(payload), None, ZERO_HASH)]
                && EventsOf(RecordsOf(files[labId].lines)) == [] && SourcesAgree(RecordsOf(files[labId].lines))
                && (Intact(h, labId, files[labId]) <==> SafeNonNegative(timestamp))
    {
      hide RecordsOf, Intact, EventsOf, SourcesAgree;
      if labId in files {
        return Err(Io);
      }
      var first := MakeRecord(h, labId, 1, timestamp, BeginCreate, FromController(session),
                              ControllerPayload(payload), None, ZERO_HASH);
      files := files[labId := File([Json(first)], None)];
      FirstRecordIsReadable(h, labId, session, timestamp, payload);
      r := Ok(Head(1, first.recordHash, None));
    }

    predicate Owned(records: seq<Record>, session: string)
      requires records != []
    {
      records[0].body.source == FromController(session)
    }

    /** The file holds the records and a first part of the additions. */
    ghost predicate HoldsPart(labId: string, session: string, records: seq<Record>, additions: seq<Event>)
      reads this
      requires labId in files
    {
      exists k ::
        && 0 <= k <= |additions|
        && RecordsOf(files[labId].lines) == Recorded(h, labId, session, records, additions[..k])
    }

    /** The loop over the selected events, each record chained to the one before. */
    method MakeRecords(labId: string, session: string, records: seq<Record>, current: Head, selected: seq<Event>)
      returns (additions: seq<Record>)
      requires records != [] && current.sequence == |records| && current.recordHash == TailHash(records)
      ensures records + additions == Recorded(h, labId, session, records, selected) && |additions| == |selected|
    {
      additions := [];
      var sequence, prevHash := current.sequence, current.recordHash;
      assert records + [] == records;
      for i := 0 to |selected|
        invariant |additions| == i && sequence == |records| + i
        invariant records + additions == Recorded(h, labId, session, records, selected[..i])
        invariant prevHash == TailHash(records + additions)
      {
        var event := selected[i];
        sequence := sequence + 1;
        var record := MakeRecord(h, labId, sequence, event.time, Classify(event),
                                 FromSession(session, event.eventSeq, event.eventType), EventPayload(event), None,
                                 prevHash);
        assert selected[..i + 1][..i] == selected[..i];
        assert record == EventRecord(h, labId, session, records + additions, event);
        assert records + (additions + [record]) == records + additions + [record];
        additions := additions + [record];
        prevHash := record.recordHash;
      }
      assert selected[..|selected|] == selected;
    }

    /** `appendSessionEvents`: the file gains the records of exactly the missing events, or a first part of them. */
    method AppendSessionEvents(labId: string, session: string, fromSeq: Option<nat>, events: seq<Event>)
      returns (r: Result<Head, Code>)
      modifies this
      ensures labId !in old(files) ==> r == Err(Missing) && files == old(files)
      ensures labId in old(files) && !Intact(h, labId, old(files)[labId]) ==> r == Err(Corrupt) && files == old(files)
      ensures labId in old(files) && Intact(h, labId, old(files)[labId]) ==>
                var records := RecordsOf(old(files)[labId].lines);
                var additions := Additions(if fromSeq.Some? then fromSeq.value else 0, records, events);
                && labId in files
                && (!Owned(records, session) ==> r == Err(ControllerMismatch) && files == old(files))
                && (r.Ok? ==>
                      && files[labId].partial.None?
                      && RecordsOf(files[labId].lines) == Recorded(h, labId, session, records, additions)
                      && r.value == HeadOf(RecordsOf(files[labId].lines)))
                && (r.Err? ==> files == old(files) || HoldsPart(labId, session, records, additions))
    {
      hide Recorded, Select, LastEventSeq, RecordsOf, EventRecord;
      var read := Read(labId);
      if read.Err? {
        return Err(read.error);
      }
      var records := read.value;
      if !Owned(records, session) {
        return Err(ControllerMismatch);
      }
      var current := FindHead(records);
      var lowerBound := if fromSeq.Some? then fromSeq.value else 0;
      if current.lastEventSeq.Some? && lowerBound < current.lastEventSeq.value + 1 {
        lowerBound := current.lastEventSeq.value + 1;
      }
      var selected := Select(events, lowerBound);
      if selected == [] {
        return Ok(current);
      }
      var additions := MakeRecords(labId, session, records, current, selected);
      ghost var lines := files[labId].lines;
      var ok := AppendLines(labId, additions);
      if !ok {
        ghost var k :| 0 <= k <= |additions| && files[labId].lines == lines + Lines(additions[..k]);
        RecordsOfAppended(lines, additions[..k]);
        RecordedPrefix(h, labId, session, records, selected, k);
        assert (records + additions)[..|records| + k] == records + additions[..k];
        return Err(Io);
      }
      RecordsOfAppended(lines, additions);
      var head := FindHead(records + additions);
      r := Ok(head);
    }

    method AppendControllerRecord(labId: string, session: string, timestamp: Number, kind: Kind, payload: string,
                                  relatedRevision: Option<int>) returns (r: Result<Head, Code>)
      modifies this
      ensures r.Ok? ==>
                && labId in old(files) && labId in files && Intact(h, labId, old(files)[labId])
                && var records := RecordsOf(old(files)[labId].lines);
                   RecordsOf(files[labId].lines)
                   == records + [MakeRecord(h, labId, |records| + 1, timestamp, kind, FromController(session),
                                            ControllerPayload(payload), relatedRevision, TailHash(records))]
      ensures r.Ok? ==> r.value == HeadOf(RecordsOf(files[labId].lines))
      ensures r.Err? ==>
                || files == old(files)
                || (labId in old(files) && labId in files && files == old(files)[labId := files[labId]]
                    && var records := RecordsOf(old(files)[labId].lines);
                       var record := MakeRecord(h, labId, |records| + 1, timestamp, kind, FromController(session),
                                                ControllerPayload(payload), relatedRevision, TailHash(records));
                       RecordsOf(files[labId].lines) == records || RecordsOf(files[labId].lines) == records + [record])
      ensures labId !in old(files) ==> r == Err(Missing)
      ensures labId in old(files) && !Intact(h, labId, old(files)[labId]) ==> r == Err(Corrupt)
      ensures labId in old(files) && Intact(h, labId, old(files)[labId]) ==>
                (!Owned(RecordsOf(old(files)[labId].lines), session) ==> r == Err(ControllerMismatch) && files == old(files))
    {
      hide RecordsOf, ChainOk, LastEventSeq;
      var read := Read(labId);
      if read.Err? {
        return Err(read.error);
      }
      var records := read.value;
      if !Owned(records, session) {
        return Err(ControllerMismatch);
      }
      ChainLength(h, labId, records);
      var current := FindHead(records);
      var record := MakeRecord(h, labId, current.sequence + 1, timestamp, kind, FromController(session),
                               ControllerPayload(payload), relatedRevision, current.recordHash);
      ghost var lines := files[labId].lines;
      RecordsOfAppended(lines, [record]);
      var ok := AppendLines(labId, [record]);
      if !ok {
        ghost var k :| 0 <= k <= 1 && files[labId].lines == lines + Lines([record][..k]);
        RecordsOfAppended(lines, [record][..k]);
        assert k == 1 ==> [record][..k] == [record];
        return Err(Io);
      }
      var head := FindHead(records + [record]);
      r := Ok(head);
    }
  }

  lemma {:induction false} RecordedPrefix(h: Hashes, labId: string, session: string, records: seq<Record>,
                                          events: seq<Event>, k: nat)
    requires k <= |events|
    ensures Recorded(h, labId, session, records, events[..k])
            == Recorded(h, labId, session, records, events)[..|records| + k]
  {
    if k < |events| {
      var n := |events| - 1;
      RecordedPrefix(h, labId, session, records, events[..n], k);
      assert events[..n][..k] == events[..k];
    } else {
      assert events[..k] == events;
    }
  }
}

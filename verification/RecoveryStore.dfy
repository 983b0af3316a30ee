/**
 `DurableApiRecoveryStore` (dsh-autolab/src/api-recovery-store.ts): puts and
 compare-before-delete removes over one table, serialized per Session by the
 promise chain of KeyedQueue.dfy.  A remove compares when it begins and deletes
 later, so the exactness of the comparison rests on the serialization.
 */
module RecoveryStore {
  import opened Wrappers
  import opened ApiRecoveryRecords
  import Q = KeyedQueue
  import Machine = ApiRecoveryMachine

  datatype Work = PutWork(record: Record) | RemoveWork(expected: Record)

  /** How far the running operation has come: `matched` is a remove's comparison. */
  datatype Progress = Fresh | Compared(matched: bool) | Landed

  /** `work` and `progress` are indexed like the queue's jobs; `first` is the table the process opened. */
  datatype Store = Store(queue: Q.Queue, work: seq<Work>, progress: seq<Progress>,
                         table: map<string, Record>, first: map<string, Record>)

  function SessionOf(work: Work): string {
    match work
    case PutWork(record) => record.base.assignment.sessionId
    case RemoveWork(expected) => expected.base.assignment.sessionId
  }

  function Entry(table: map<string, Record>, session: string): Option<Record> {
    if session in table then Some(table[session]) else None
  }

  // ---- The operations taken whole ---------------------------------------------

  /** An operation performed at one instant on the Session's entry. */
  function Apply(entry: Option<Record>, work: Work): Option<Record> {
    match work
    case PutWork(record) => Some(record)
    case RemoveWork(expected) => if entry == Some(expected) then None else entry
  }

  /** The operation changed, or decided not to change, the table. */
  predicate Effective(s: Store, i: nat)
    requires i < |s.queue.jobs| == |s.progress|
  {
    var phase := s.queue.jobs[i].phase;
    (phase.Settled? && phase.ok) || (phase.Running? && s.progress[i].Landed?)
  }

  /** The Session's entry after its first `n` submissions, each effective one taken whole, in submission order. */
  function Folded(s: Store, session: string, n: nat): Option<Record>
    requires n <= |s.queue.jobs| == |s.progress| == |s.work|
  {
    if n == 0 then Entry(s.first, session)
    else
      var before := Folded(s, session, n - 1);
      if s.queue.jobs[n - 1].key == session && Effective(s, n - 1) then Apply(before, s.work[n - 1]) else before
  }

  // ---- Steps --------------------------------------------------------------------

  datatype Action =
    | Submitting(work: Work)
    | Starting(i: nat)
    | Landing(i: nat)
    | Finishing(i: nat, ok: bool)
    | Sweeping(i: nat)

  predicate Sized(s: Store) { |s.queue.jobs| == |s.work| == |s.progress| }

  /**
   A put lands once; a remove that matched lands its delete, one that did not
   has nothing to land.  An operation that fails leaves the table alone.
   */
  predicate Enabled(s: Store, a: Action)
    requires Sized(s)
  {
    match a
    case Submitting(_) => true
    case Starting(i) => Q.CanStart(s.queue, i)
    case Landing(i) =>
      && Q.CanFinish(s.queue, i)
      && (if s.work[i].PutWork? then s.progress[i].Fresh? else s.progress[i] == Compared(true))
    case Finishing(i, ok) =>
      && Q.CanFinish(s.queue, i)
      && (ok <==> s.progress[i].Landed? || s.progress[i] == Compared(false))
    case Sweeping(i) => Q.CanSweep(s.queue, i)
  }

  function Step(s: Store, a: Action): Store
    requires Sized(s) && Enabled(s, a)
  {
    match a
    case Submitting(work) =>
      s.(queue := Q.Submit(s.queue, SessionOf(work)), work := s.work + [work], progress := s.progress + [Fresh])
    case Starting(i) =>
      s.(queue := Q.Start(s.queue, i),
         progress := if s.work[i].PutWork? then s.progress
                     else s.progress[i := Compared(Entry(s.table, s.queue.jobs[i].key) == Some(s.work[i].expected))])
    case Landing(i) =>
      var key := s.queue.jobs[i].key;
      s.(table := if s.work[i].PutWork? then s.table[key := s.work[i].record] else s.table - {key},
         progress := s.progress[i := Landed])
    case Finishing(i, ok) => s.(queue := Q.Finish(s.queue, i, ok))
    case Sweeping(i) => s.(queue := Q.Sweep(s.queue, i))
  }

  predicate Initial(s: Store) { s.queue == Q.EMPTY && s.work == [] && s.progress == [] && s.table == s.first }

  predicate ValidRun(s: Store, run: seq<Action>)
    requires Sized(s)
    decreases |run|
  {
    run == [] || (Enabled(s, run[0]) && ValidRun(Step(s, run[0]), run[1..]))
  }

  function After(s: Store, run: seq<Action>): (t: Store)
    requires Sized(s) && ValidRun(s, run)
    ensures Sized(t)
    decreases |run|
  {
    if run == [] then s else After(Step(s, run[0]), run[1..])
  }

  // ---- Linearizability --------------------------------------------------------------

  predicate ItemsOk(s: Store)
    requires Sized(s)
  {
    forall i :: 0 <= i < |s.work| ==>
      && s.queue.jobs[i].key == SessionOf(s.work[i])
      && (s.queue.jobs[i].phase.Waiting? ==> s.progress[i].Fresh?)
      && (s.work[i].PutWork? ==> !s.progress[i].Compared?)
      && (s.queue.jobs[i].phase.Settled? && s.queue.jobs[i].phase.ok ==>
            s.progress[i].Landed? || s.progress[i] == Compared(false))
  }

  /** A running remove's comparison is still true of the table. */
  predicate ComparisonsHold(s: Store)
    requires Sized(s)
  {
    forall i :: 0 <= i < |s.work| && s.queue.jobs[i].phase.Running? && s.progress[i].Compared? && s.work[i].RemoveWork? ==>
      (s.progress[i].matched <==> Entry(s.table, s.queue.jobs[i].key) == Some(s.work[i].expected))
  }

  ghost predicate TableIsFold(s: Store)
    requires Sized(s)
  {
    forall session: string :: Entry(s.table, session) == Folded(s, session, |s.work|)
  }

  ghost predicate Inv(s: Store) {
    Sized(s) && ItemsOk(s) && ComparisonsHold(s) && TableIsFold(s) && Q.Inv(s.queue)
  }

  /** The fold reads only the effective operations of the Session. */
  lemma {:induction false} FoldFrame(s: Store, t: Store, session: string, n: nat)
    requires Sized(s) && Sized(t) && n <= |s.work| && n <= |t.work| && t.first == s.first
    requires forall i :: 0 <= i < n ==>
               && t.queue.jobs[i].key == s.queue.jobs[i].key && t.work[i] == s.work[i]
               && (s.queue.jobs[i].key == session ==> (Effective(t, i) <==> Effective(s, i)))
    ensures Folded(t, session, n) == Folded(s, session, n)
  {
    if n > 0 {
      FoldFrame(s, t, session, n - 1);
    }
  }

  /** Operations that had no effect yet do not show. */
  lemma {:induction false} FoldPast(s: Store, session: string, i: nat, n: nat)
    requires Sized(s) && i <= n <= |s.work|
    requires forall j :: i <= j < n && s.queue.jobs[j].key == session ==> !Effective(s, j)
    ensures Folded(s, session, n) == Folded(s, session, i)
  {
    if i < n {
      FoldPast(s, session, i, n - 1);
    }
  }

  /** Behind a running operation of a key everything waits. */
  lemma BehindRunning(s: Store, i: nat)
    requires Sized(s) && Q.Inv(s.queue) && i < |s.work| && s.queue.jobs[i].phase.Running?
    ensures forall j :: i < j < |s.work| && s.queue.jobs[j].key == s.queue.jobs[i].key ==> s.queue.jobs[j].phase.Waiting?
    ensures forall j :: 0 <= j < i && s.queue.jobs[j].key == s.queue.jobs[i].key ==> s.queue.jobs[j].phase.Settled?
  {
  }

  lemma SubmitKeeps(s: Store, work: Work)
    requires Inv(s)
    ensures Inv(Step(s, Submitting(work)))
  {
    hide Q.Inv;
    var t := Step(s, Submitting(work));
    Q.SubmitKeeps(s.queue, SessionOf(work));
    forall session: string ensures Entry(t.table, session) == Folded(t, session, |t.work|) {
      FoldFrame(s, t, session, |s.work|);
    }
  }

  /** The comparison a remove makes when it begins is made on the table its predecessors left. */
  lemma StartKeeps(s: Store, i: nat)
    requires Inv(s) && Enabled(s, Starting(i))
    ensures Inv(Step(s, Starting(i)))
  {
    hide Q.Inv;
    var t := Step(s, Starting(i));
    Q.StartKeeps(s.queue, i);
    forall session: string ensures Entry(t.table, session) == Folded(t, session, |t.work|) {
      FoldFrame(s, t, session, |s.work|);
    }
  }

  /** The fold once operation `i`, with nothing of its Session effective behind it, takes effect. */
  lemma FoldWithEffectAt(s: Store, t: Store, i: nat)
    requires Sized(s) && Sized(t) && i < |s.work| == |t.work| && t.first == s.first && t.work == s.work
    requires forall j :: 0 <= j < |s.work| ==> t.queue.jobs[j].key == s.queue.jobs[j].key
    requires forall j :: 0 <= j < i ==> (Effective(t, j) <==> Effective(s, j))
    requires forall j :: i <= j < |s.work| && s.queue.jobs[j].key == s.queue.jobs[i].key ==> !Effective(s, j)
    requires forall j :: i < j < |s.work| && s.queue.jobs[j].key == s.queue.jobs[i].key ==> !Effective(t, j)
    requires Effective(t, i)
    ensures var key := s.queue.jobs[i].key;
            Folded(t, key, |t.work|) == Apply(Folded(s, key, |s.work|), s.work[i])
  {
    var key := s.queue.jobs[i].key;
    FoldPast(s, key, i, |s.work|);
    FoldPast(t, key, i + 1, |t.work|);
    FoldFrame(s, t, key, i);
  }

  /** Landing makes the running operation take effect whole, between its predecessors and its successors. */
  lemma LandKeepsFold(s: Store, i: nat)
    requires Inv(s) && Enabled(s, Landing(i))
    ensures TableIsFold(Step(s, Landing(i)))
  {
    hide Q.Inv;
    BehindRunning(s, i);
    var t := Step(s, Landing(i));
    var key := s.queue.jobs[i].key;
    FoldWithEffectAt(s, t, i);
    assert Entry(s.table, key) == Folded(s, key, |s.work|);
    assert Entry(t.table, key) == Folded(t, key, |t.work|);
    forall session: string | session != key ensures Entry(t.table, session) == Folded(t, session, |t.work|) {
      FoldFrame(s, t, session, |s.work|);
      assert Entry(t.table, session) == Entry(s.table, session);
    }
  }

  lemma LandKeeps(s: Store, i: nat)
    requires Inv(s) && Enabled(s, Landing(i))
    ensures Inv(Step(s, Landing(i)))
  {
    hide Q.Inv, TableIsFold, Folded;
    LandKeepsFold(s, i);
    BehindRunning(s, i);
  }

  /** A remove that did not match is a whole remove that changes nothing. */
  lemma FinishKeepsFold(s: Store, i: nat, ok: bool)
    requires Inv(s) && Enabled(s, Finishing(i, ok))
    ensures TableIsFold(Step(s, Finishing(i, ok)))
  {
    hide Q.Inv;
    BehindRunning(s, i);
    var t := Step(s, Finishing(i, ok));
    var key := s.queue.jobs[i].key;
    assert Entry(s.table, key) == Folded(s, key, |s.work|);
    if ok && s.progress[i].Compared? {
      FoldWithEffectAt(s, t, i);
    } else {
      FoldFrame(s, t, key, |s.work|);
    }
    forall session: string | session != key ensures Entry(t.table, session) == Folded(t, session, |t.work|) {
      FoldFrame(s, t, session, |s.work|);
    }
  }

  lemma FinishKeeps(s: Store, i: nat, ok: bool)
    requires Inv(s) && Enabled(s, Finishing(i, ok))
    ensures Inv(Step(s, Finishing(i, ok)))
  {
    hide Q.Inv, TableIsFold, Folded;
    FinishKeepsFold(s, i, ok);
    Q.FinishKeeps(s.queue, i, ok);
  }

  lemma SweepKeeps(s: Store, i: nat)
    requires Inv(s) && Enabled(s, Sweeping(i))
    ensures Inv(Step(s, Sweeping(i)))
  {
    hide Q.Inv;
    var t := Step(s, Sweeping(i));
    Q.SweepKeeps(s.queue, i);
    forall session: string ensures Entry(t.table, session) == Folded(t, session, |t.work|) {
      FoldFrame(s, t, session, |s.work|);
    }
  }

  lemma {:induction false} RunKeeps(s: Store, run: seq<Action>)
    requires Inv(s) && ValidRun(s, run)
    ensures Inv(After(s, run))
    decreases |run|
  {
    hide Q.Inv, Step, Enabled;
    if run != [] {
      match run[0] {
        case Submitting(work) => SubmitKeeps(s, work);
        case Starting(i) => StartKeeps(s, i);
        case Landing(i) => LandKeeps(s, i);
        case Finishing(i, ok) => FinishKeeps(s, i, ok);
        case Sweeping(i) => SweepKeeps(s, i);
      }
      RunKeeps(Step(s, run[0]), run[1..]);
    }
  }

  /**
   Under any interleaving of queued puts and removes, failing or not, every
   Session's entry equals the atomic execution, in submission order, of the
   operations that took effect.
   */
  lemma ContentsAreAtomicInOrder(s: Store, run: seq<Action>, session: string)
    requires Initial(s) && ValidRun(s, run)
    ensures var t := After(s, run);
            Entry(t.table, session) == Folded(t, session, |t.work|)
  {
    assert TableIsFold(s) by {
      forall session: string ensures Entry(s.table, session) == Folded(s, session, |s.work|) {
      }
    }
    RunKeeps(s, run);
  }

  /**
   A stale actor cannot erase a newer incident: when a remove's delete lands,
   the table still holds exactly the record it expects, although the
   comparison was made earlier.
   */
  lemma DeleteHitsOnlyItsRecord(s: Store, run: seq<Action>, i: nat)
    requires Initial(s) && ValidRun(s, run)
    requires Enabled(After(s, run), Landing(i)) && After(s, run).work[i].RemoveWork?
    ensures var t := After(s, run);
            && Entry(t.table, SessionOf(t.work[i])) == Some(t.work[i].expected)
            && Step(t, Landing(i)).table == t.table - {SessionOf(t.work[i])}
  {
    assert TableIsFold(s) by {
      forall session: string ensures Entry(s.table, session) == Folded(s, session, |s.work|) {
      }
    }
    RunKeeps(s, run);
  }

  /**
   The recovery machine's store operation is this whole operation: queue
   order, effect and the boolean a remove reports.
   */
  lemma MachineUsesAtomicForm(s: Machine.State, ok: bool)
    requires s.host.queue != []
    ensures var op := s.host.queue[0];
            var work := if op.Put? then PutWork(op.record) else RemoveWork(op.record);
            var t := Machine.RunStoreOp(s, ok);
            && t.host.store == (if ok then Apply(s.host.store, work) else s.host.store)
            && t.host.queue == s.host.queue[1..]
            && (op.id in s.host.tasks ==>
                  t.host.tasks[op.id].signal
                  == Machine.Ready(ok, op.Remove? && ok && s.host.store == Some(op.record)))
  {
  }

  /** The store over its mutable chain and table, one method per segment between awaits. */
  class DurableApiRecoveryStore {
    const chain: Q.Chain
    var work: seq<Work>
    var progress: seq<Progress>
    var table: map<string, Record>
    ghost const first: map<string, Record>

    ghost function Value(): Store
      reads this, chain
    {
      Store(chain.State(), work, progress, table, first)
    }

    ghost predicate Valid()
      reads this, chain
    {
      Inv(Value())
    }

    constructor (contents: map<string, Record>)
      ensures Valid() && Initial(Value()) && table == contents
      ensures fresh(chain)
    {
      chain := new Q.Chain();
      work, progress, table, first := [], [], contents, contents;
      new;
      assert TableIsFold(Value()) by {
        forall session: string ensures Entry(table, session) == Folded(Value(), session, |work|) {
        }
      }
    }

    method Get(session: string) returns (found: Option<Record>)
      requires Valid()
      ensures found == Folded(Value(), session, |work|)
    {
      found := Entry(table, session);
    }

    method Submitted(job: Work) returns (i: nat)
      requires Valid()
      modifies this, chain
      ensures Valid() && Value() == Step(old(Value()), Submitting(job)) && i == |old(work)|
    {
      SubmitKeeps(Value(), job);
      i := chain.Enqueue(SessionOf(job));
      work, progress := work + [job], progress + [Fresh];
    }

    /** A record the strict schema refuses throws before anything is queued. */
    method Put(raw: Raw) returns (queued: Option<nat>)
      requires Valid()
      modifies this, chain
      ensures Valid()
      ensures !SchemaAccepts(raw) ==> queued.None? && Value() == old(Value())
      ensures SchemaAccepts(raw) ==>
                exists record :: ToRaw(record) == raw
                  && Value() == Step(old(Value()), Submitting(PutWork(record))) && queued == Some(|old(work)|)
    {
      var parsed := Parse(raw);
      if parsed.None? {
        return None;
      }
      ParseInvertsToRaw(raw, parsed.value);
      var i := Submitted(PutWork(parsed.value));
      queued := Some(i);
    }

    method Remove(raw: Raw) returns (queued: Option<nat>)
      requires Valid()
      modifies this, chain
      ensures Valid()
      ensures !SchemaAccepts(raw) ==> queued.None? && Value() == old(Value())
      ensures SchemaAccepts(raw) ==>
                exists record :: ToRaw(record) == raw
                  && Value() == Step(old(Value()), Submitting(RemoveWork(record))) && queued == Some(|old(work)|)
    {
      var parsed := Parse(raw);
      if parsed.None? {
        return None;
      }
      ParseInvertsToRaw(raw, parsed.value);
      var i := Submitted(RemoveWork(parsed.value));
      queued := Some(i);
    }

    /** The operation's turn: a remove reads the table now. */
    method Begin(i: nat)
      requires Valid() && Enabled(Value(), Starting(i))
      modifies this, chain
      ensures Valid() && Value() == Step(old(Value()), Starting(i))
    {
      StartKeeps(Value(), i);
      chain.Begin(i);
      if work[i].RemoveWork? {
        progress := progress[i := Compared(Entry(table, chain.jobs[i].key) == Some(work[i].expected))];
      }
    }

    /** The awaited `table.put` or `table.delete` takes effect. */
    method Land(i: nat)
      requires Valid() && Enabled(Value(), Landing(i))
      modifies this
      ensures Valid() && Value() == Step(old(Value()), Landing(i))
      ensures work[i].RemoveWork? ==> Entry(old(table), chain.jobs[i].key) == Some(work[i].expected)
    {
      LandKeeps(Value(), i);
      var key := chain.jobs[i].key;
      if work[i].PutWork? {
        table := table[key := work[i].record];
      } else {
        table := table - {key};
      }
      progress := progress[i := Landed];
    }

    method Settle(i: nat, ok: bool)
      requires Valid() && Enabled(Value(), Finishing(i, ok))
      modifies this, chain
      ensures Valid() && Value() == Step(old(Value()), Finishing(i, ok))
    {
      FinishKeeps(Value(), i, ok);
      chain.Settle(i, ok);
    }

    method Finally(i: nat)
      requires Valid() && Enabled(Value(), Sweeping(i))
      modifies this, chain
      ensures Valid() && Value() == Step(old(Value()), Sweeping(i))
    {
      SweepKeeps(Value(), i);
      chain.Finally(i);
    }
  }
}

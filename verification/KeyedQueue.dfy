/**
 The per-key promise chain three classes of the source build the same way: the
 recovery store by Session, the Attempt consumer by target, the Controller by
 Lab.  `enqueue` chains an operation behind the key's current tail, makes its
 own settlement the new tail, and forgets the tail once it is still the newest.
 */
module KeyedQueue {
  import opened Wrappers

  datatype Phase = Waiting | Running | Settled(ok: bool, swept: bool)

  /** One submitted operation; `previous` is the tail it was chained behind. */
  datatype Job = Job(key: string, previous: Option<nat>, phase: Phase)

  /** Jobs in submission order, and the tail map. */
  datatype Queue = Queue(jobs: seq<Job>, tails: map<string, nat>)

  const EMPTY := Queue([], map[])

  function Tail(q: Queue, key: string): Option<nat> {
    if key in q.tails then Some(q.tails[key]) else None
  }

  function Submit(q: Queue, key: string): Queue {
    Queue(q.jobs + [Job(key, Tail(q, key), Waiting)], q.tails[key := |q.jobs|])
  }

  /** `previous.then(operation)`: the predecessor's tail resolves whether it succeeded or failed. */
  predicate CanStart(q: Queue, i: nat) {
    && i < |q.jobs| && q.jobs[i].phase.Waiting?
    && (q.jobs[i].previous.None?
        || (q.jobs[i].previous.value < |q.jobs| && q.jobs[q.jobs[i].previous.value].phase.Settled?))
  }

  function Start(q: Queue, i: nat): Queue
    requires CanStart(q, i)
  {
    q.(jobs := q.jobs[i := q.jobs[i].(phase := Running)])
  }

  predicate CanFinish(q: Queue, i: nat) { i < |q.jobs| && q.jobs[i].phase.Running? }

  function Finish(q: Queue, i: nat, ok: bool): Queue
    requires CanFinish(q, i)
  {
    q.(jobs := q.jobs[i := q.jobs[i].(phase := Settled(ok, false))])
  }

  predicate CanSweep(q: Queue, i: nat) {
    i < |q.jobs| && q.jobs[i].phase.Settled? && !q.jobs[i].phase.swept
  }

  /** `tail.finally`: forget the tail only if it is still this one. */
  function Sweep(q: Queue, i: nat): Queue
    requires CanSweep(q, i)
  {
    var key := q.jobs[i].key;
    Queue(q.jobs[i := q.jobs[i].(phase := Settled(q.jobs[i].phase.ok, true))],
          if Tail(q, key) == Some(i) then q.tails - {key} else q.tails)
  }

  // ---- The invariant -----------------------------------------------------

  /** `p` is the job of `i`'s key submitted last before `i`. */
  predicate IsPredecessor(q: Queue, p: nat, i: nat)
    requires i < |q.jobs|
  {
    && p < i && q.jobs[p].key == q.jobs[i].key
    && forall j :: p < j < i ==> q.jobs[j].key != q.jobs[i].key
  }

  predicate ChainOk(q: Queue) {
    forall i :: 0 <= i < |q.jobs| ==>
      match q.jobs[i].previous
      case Some(p) => IsPredecessor(q, p, i)
      case None => forall j :: 0 <= j < i && q.jobs[j].key == q.jobs[i].key ==> q.jobs[j].phase.Settled?
  }

  predicate TailsOk(q: Queue) {
    && (forall key :: key in q.tails ==>
          && q.tails[key] < |q.jobs| && q.jobs[q.tails[key]].key == key
          && !(q.jobs[q.tails[key]].phase.Settled? && q.jobs[q.tails[key]].phase.swept)
          && forall j :: q.tails[key] < j < |q.jobs| ==> q.jobs[j].key != key)
    && (forall j :: 0 <= j < |q.jobs| && q.jobs[j].key !in q.tails ==> q.jobs[j].phase.Settled?)
  }

  /** Whoever left the waiting line has only settled predecessors on its key. */
  predicate InOrder(q: Queue) {
    forall i, j :: 0 <= i < j < |q.jobs| && q.jobs[i].key == q.jobs[j].key && !q.jobs[j].phase.Waiting? ==>
      q.jobs[i].phase.Settled?
  }

  predicate Inv(q: Queue) { ChainOk(q) && TailsOk(q) && InOrder(q) }

  datatype Action = Submitting(key: string) | Starting(i: nat) | Finishing(i: nat, ok: bool) | Sweeping(i: nat)

  predicate Enabled(q: Queue, a: Action) {
    match a
    case Submitting(_) => true
    case Starting(i) => CanStart(q, i)
    case Finishing(i, _) => CanFinish(q, i)
    case Sweeping(i) => CanSweep(q, i)
  }

  function Step(q: Queue, a: Action): Queue
    requires Enabled(q, a)
  {
    match a
    case Submitting(key) => Submit(q, key)
    case Starting(i) => Start(q, i)
    case Finishing(i, ok) => Finish(q, i, ok)
    case Sweeping(i) => Sweep(q, i)
  }

  lemma SubmitKeepsChain(q: Queue, key: string)
    requires ChainOk(q) && TailsOk(q)
    ensures ChainOk(Submit(q, key))
  {
    var r := Submit(q, key);
    forall i | 0 <= i < |q.jobs| && q.jobs[i].previous.Some?
      ensures IsPredecessor(r, q.jobs[i].previous.value, i) {
      assert IsPredecessor(q, q.jobs[i].previous.value, i);
    }
  }

  lemma SubmitKeeps(q: Queue, key: string)
    requires Inv(q)
    ensures Inv(Submit(q, key))
  {
    SubmitKeepsChain(q, key);
    hide ChainOk;
  }

  /** A job that moves on, and settled jobs that stay settled, leave the chain intact. */
  lemma PhaseKeepsChain(q: Queue, i: nat, phase: Phase, tails: map<string, nat>)
    requires ChainOk(q) && i < |q.jobs| && (q.jobs[i].phase.Settled? ==> phase.Settled?)
    ensures ChainOk(Queue(q.jobs[i := q.jobs[i].(phase := phase)], tails))
  {
    var r := Queue(q.jobs[i := q.jobs[i].(phase := phase)], tails);
    forall k | 0 <= k < |r.jobs| && r.jobs[k].previous.Some?
      ensures IsPredecessor(r, r.jobs[k].previous.value, k) {
      assert IsPredecessor(q, q.jobs[k].previous.value, k);
    }
  }

  lemma StartIsOldest(q: Queue, i: nat)
    requires Inv(q) && CanStart(q, i)
    ensures forall j :: 0 <= j < i && q.jobs[j].key == q.jobs[i].key ==> q.jobs[j].phase.Settled?
  {
    if q.jobs[i].previous.Some? {
      assert IsPredecessor(q, q.jobs[i].previous.value, i);
    }
  }

  /** A job that starts is the oldest unsettled one of its key. */
  lemma StartKeeps(q: Queue, i: nat)
    requires Inv(q) && CanStart(q, i)
    ensures Inv(Start(q, i))
    ensures forall j :: 0 <= j < i && q.jobs[j].key == q.jobs[i].key ==> q.jobs[j].phase.Settled?
  {
    StartIsOldest(q, i);
    PhaseKeepsChain(q, i, Running, q.tails);
    hide ChainOk;
  }

  lemma FinishKeeps(q: Queue, i: nat, ok: bool)
    requires Inv(q) && CanFinish(q, i)
    ensures Inv(Finish(q, i, ok))
  {
    PhaseKeepsChain(q, i, Settled(ok, false), q.tails);
    hide ChainOk;
  }

  lemma SweepKeeps(q: Queue, i: nat)
    requires Inv(q) && CanSweep(q, i)
    ensures Inv(Sweep(q, i))
  {
    var r := Sweep(q, i);
    PhaseKeepsChain(q, i, r.jobs[i].phase, r.tails);
    hide ChainOk;
    forall j | 0 <= j < |r.jobs| && r.jobs[j].key !in r.tails ensures r.jobs[j].phase.Settled? {
      if r.jobs[j].key in q.tails && j < i {
        assert q.jobs[i].key == q.jobs[j].key && !q.jobs[i].phase.Waiting?;
      }
    }
  }

  lemma StepKeeps(q: Queue, a: Action)
    requires Inv(q) && Enabled(q, a)
    ensures Inv(Step(q, a))
  {
    match a
    case Submitting(key) => SubmitKeeps(q, key);
    case Starting(i) => StartKeeps(q, i);
    case Finishing(i, ok) => FinishKeeps(q, i, ok);
    case Sweeping(i) => SweepKeeps(q, i);
  }

  predicate ValidRun(q: Queue, run: seq<Action>)
    decreases |run|
  {
    run == [] || (Enabled(q, run[0]) && ValidRun(Step(q, run[0]), run[1..]))
  }

  function After(q: Queue, run: seq<Action>): Queue
    requires ValidRun(q, run)
    decreases |run|
  {
    if run == [] then q else After(Step(q, run[0]), run[1..])
  }

  lemma {:induction false} RunKeeps(q: Queue, run: seq<Action>)
    requires Inv(q) && ValidRun(q, run)
    ensures Inv(After(q, run))
    decreases |run|
  {
    if run != [] {
      StepKeeps(q, run[0]);
      RunKeeps(Step(q, run[0]), run[1..]);
    }
  }

  // ---- The theorems ---------------------------------------------------------

  /** Operations of one key run in submission order and never overlap. */
  lemma InSubmissionOrder(run: seq<Action>, i: nat, j: nat)
    requires ValidRun(EMPTY, run)
    requires i < j < |After(EMPTY, run).jobs|
    requires var q := After(EMPTY, run); q.jobs[i].key == q.jobs[j].key && !q.jobs[j].phase.Waiting?
    ensures After(EMPTY, run).jobs[i].phase.Settled?
  {
    RunKeeps(EMPTY, run);
  }

  /**
   Nothing blocks: the oldest unsettled operation of any key is running or may
   start at once, whatever the outcome of the ones before it and whatever
   other keys are doing.
   */
  lemma OldestUnsettledProceeds(run: seq<Action>, i: nat)
    requires ValidRun(EMPTY, run)
    requires i < |After(EMPTY, run).jobs| && !After(EMPTY, run).jobs[i].phase.Settled?
    requires var q := After(EMPTY, run);
             forall j :: 0 <= j < i && q.jobs[j].key == q.jobs[i].key ==> q.jobs[j].phase.Settled?
    ensures var q := After(EMPTY, run);
            q.jobs[i].phase.Running? || Enabled(q, Starting(i))
  {
    RunKeeps(EMPTY, run);
    var q := After(EMPTY, run);
    if q.jobs[i].previous.Some? {
      assert IsPredecessor(q, q.jobs[i].previous.value, i);
    }
  }

  /** A step on one key changes neither the jobs nor the tail of another. */
  lemma KeysAreIndependent(q: Queue, a: Action, key: string)
    requires Enabled(q, a)
    requires match a case Submitting(k) => k != key case _ => q.jobs[a.i].key != key
    ensures forall i :: 0 <= i < |q.jobs| && q.jobs[i].key == key ==> Step(q, a).jobs[i] == q.jobs[i]
    ensures forall i :: |q.jobs| <= i < |Step(q, a).jobs| ==> Step(q, a).jobs[i].key != key
    ensures Tail(Step(q, a), key) == Tail(q, key)
  {
  }

  /** What may happen: a submission always, a settled operation's cleanup once, a running one's settling either way. */
  lemma MayHappen(q: Queue, key: string, i: nat, ok: bool)
    ensures Enabled(q, Submitting(key))
    ensures Enabled(q, Sweeping(i)) <==> i < |q.jobs| && q.jobs[i].phase.Settled? && !q.jobs[i].phase.swept
    ensures Enabled(q, Finishing(i, ok)) <==> i < |q.jobs| && q.jobs[i].phase.Running?
    ensures Enabled(q, Sweeping(i)) ==>
              var swept := Step(q, Sweeping(i)).jobs[i].phase; swept.Settled? && swept.swept && swept.ok == q.jobs[i].phase.ok
  {
  }

  /** Cleaning up after a job never removes a newer tail. */
  lemma SweepKeepsNewerTail(q: Queue, i: nat)
    requires CanSweep(q, i)
    ensures Tail(Sweep(q, i), q.jobs[i].key) == (if Tail(q, q.jobs[i].key) == Some(i) then None else Tail(q, q.jobs[i].key))
  {
  }

  /** Once every operation has settled and been cleaned up, the tail map is empty. */
  lemma DrainedIsEmpty(run: seq<Action>)
    requires ValidRun(EMPTY, run)
    requires forall job :: job in After(EMPTY, run).jobs ==> job.phase.Settled? && job.phase.swept
    ensures After(EMPTY, run).tails == map[]
  {
    RunKeeps(EMPTY, run);
    var q := After(EMPTY, run);
    assert forall key | key in q.tails :: q.jobs[q.tails[key]] in q.jobs;
  }

  /** `enqueue` and its callbacks over the mutable tail map. */
  class Chain {
    var jobs: seq<Job>
    var tails: map<string, nat>

    ghost function State(): Queue
      reads this
    {
      Queue(jobs, tails)
    }

    ghost predicate Valid()
      reads this
    {
      Inv(State())
    }

    constructor ()
      ensures Valid() && State() == EMPTY
    {
      jobs, tails := [], map[];
    }

    method Enqueue(key: string) returns (i: nat)
      requires Valid()
      modifies this
      ensures Valid() && State() == Submit(old(State()), key) && i == |old(jobs)|
    {
      SubmitKeeps(State(), key);
      var previous := if key in tails then Some(tails[key]) else None;
      i := |jobs|;
      jobs := jobs + [Job(key, previous, Waiting)];
      tails := tails[key := i];
    }

    method Begin(i: nat)
      requires Valid() && CanStart(State(), i)
      modifies this
      ensures Valid() && State() == Start(old(State()), i)
      ensures forall j :: 0 <= j < i && jobs[j].key == jobs[i].key ==> jobs[j].phase.Settled?
    {
      StartKeeps(State(), i);
      jobs := jobs[i := jobs[i].(phase := Running)];
    }

    method Settle(i: nat, ok: bool)
      requires Valid() && CanFinish(State(), i)
      modifies this
      ensures Valid() && State() == Finish(old(State()), i, ok)
    {
      FinishKeeps(State(), i, ok);
      jobs := jobs[i := jobs[i].(phase := Settled(ok, false))];
    }

    method Finally(i: nat)
      requires Valid() && CanSweep(State(), i)
      modifies this
      ensures Valid() && State() == Sweep(old(State()), i)
    {
      SweepKeeps(State(), i);
      var key := jobs[i].key;
      jobs := jobs[i := jobs[i].(phase := Settled(jobs[i].phase.ok, true))];
      if key in tails && tails[key] == i {
        tails := tails - {key};
      }
    }
  }
}

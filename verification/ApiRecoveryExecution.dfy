/**
 Whole executions of the recovery runtime over all its Sessions.  Whatever the
 interleaving of entry points, resumptions and environment moves, the object's
 fields are, Session by Session, where the machine's runs lead; so every
 theorem about runs of the machine holds of every Session of the object.
 */
module ApiRecoveryExecution {
  import opened Wrappers
  import opened ApiRecoveryRecords
  import opened ApiRecoveryMachine
  import opened ApiRecoveryInvariants
  import opened ApiRecoverySafety
  import opened ApiRecoveryRuntimeClass
  import M = ApiRecoveryMachine

  /** What happens next: something in one Session, or to the whole process. */
  datatype Event =
    | At(sid: string, action: Action)
    | StartAll
    | DisposeAll
    | CrashAll(cuts: map<string, (nat, bool)>)

  /** A Session's own action; starting, disposing and crashing are the process's. */
  predicate Local(a: Action) { !a.DoStart? && !a.DoDispose? && !a.Crashes? }

  predicate Sound(sids: set<string>, event: Event) {
    match event
    case At(sid, action) => sid in sids && Local(action)
    case CrashAll(cuts) => sids <= cuts.Keys
    case _ => true
  }

  /** What one event is for one Session. */
  function Seen(event: Event, sid: string): seq<Action> {
    match event
    case At(k, action) => if k == sid then [action] else []
    case StartAll => [DoStart]
    case DisposeAll => [DoDispose]
    case CrashAll(cuts) => if sid in cuts then [Crashes(cuts[sid].0, cuts[sid].1)] else []
  }

  /** What a whole script is for one Session. */
  function Projected(script: seq<Event>, sid: string): seq<Action> {
    if script == [] then [] else Seen(script[0], sid) + Projected(script[1..], sid)
  }

  predicate IsEnvironment(a: Action) { WorldMove(a) || a.Checkpoint? }

  lemma EnvironmentTouchesHostOnly(s: State, a: Action)
    requires Enabled(s, a) && IsEnvironment(a)
    ensures Step(s, a) == s.(host := Step(s, a).host)
  {
  }

  method MoveEnvironment(r: ApiRecoveryRuntime, sid: string, a: Action)
    requires sid in r.hosts && Enabled(r.Slice(sid), a) && IsEnvironment(a)
    modifies r`hosts
    ensures r.Performs(sid, M.Step(old(r.Slice(sid)), a))
  {
    hide Step, Enabled;
    var s := State(r.started, r.Lookup(r.timers, sid), sid in r.inFlight, r.Lookup(r.pendingAwaiting, sid), r.hosts[sid]);
    EnvironmentTouchesHostOnly(s, a);
    r.hosts := r.hosts[sid := Step(s, a).host];
  }

  /** One action of one Session, through the runtime's own methods. */
  method Perform(r: ApiRecoveryRuntime, sid: string, a: Action)
    requires sid in r.hosts && Enabled(r.Slice(sid), a) && Local(a)
    modifies r
    ensures r.Performs(sid, M.Step(old(r.Slice(sid)), a))
  {
    hide RequestError, SessionEvent, AgentReady, AgentCreated, AdapterEdge, TimerFire, RunStoreOp, Continue, FlushDone,
      EnterMaintenance, ReviewDone, Flushed;
    if IsEnvironment(a) {
      MoveEnvironment(r, sid, a);
      return;
    }
    match a
    case DoRequestError(step, provider, failure, retried) => r.HandleRequestError(sid, step, provider, failure, retried);
    case DoSessionEvent(event) => r.HandleSessionEvent(sid, event);
    case DoAgentReady(caller) => r.HandleAgentReady(sid, caller);
    case DoAgentCreated(caller) => r.HandleAgentCreated(sid, caller);
    case DoAdapterEdge(caller, deferred) => r.HandleAdapterEdge(sid, caller, deferred);
    case DoTimer => r.FireTimer(sid);
    case DoStoreOp(ok) => r.StoreOpSettled(sid, ok);
    case DoContinue(id) => r.ContinueActivation(sid, id);
    case DoFlush(id, ok) => r.FlushSettled(sid, id, ok);
    case DoReject(id) => r.ClaimRejected(sid, id);
    case DoEnter(id, outcome) => r.EnterMaintenance(sid, id, outcome);
    case DoReview(id, wake) => r.ReviewSettled(sid, id, wake);
    case _ =>
  }

  predicate Survives(h: Host, cut: (nat, bool)) {
    h.world.saved <= cut.0 <= |h.world.log| && h.effectsSaved <= |h.effects|
  }

  function Remains(h: Host, cut: (nat, bool)): Host
    requires Survives(h, cut)
  {
    Crash(State(false, None, false, None, h), cut.0, cut.1).host
  }

  /** The process is gone: the fields start over, every Session keeps what was durable. */
  method CrashProcess(r: ApiRecoveryRuntime, cuts: map<string, (nat, bool)>)
    requires r.hosts.Keys <= cuts.Keys
    requires forall sid | sid in r.hosts :: Survives(r.hosts[sid], cuts[sid])
    modifies r
    ensures r.hosts.Keys == old(r.hosts.Keys)
    ensures forall sid | sid in r.hosts ::
      r.Slice(sid) == State(false, None, false, None, Remains(old(r.hosts[sid]), cuts[sid]))
  {
    hide Remains;
    r.hosts := map sid | sid in r.hosts :: Remains(r.hosts[sid], cuts[sid]);
    r.started, r.timers, r.inFlight, r.pendingAwaiting := false, map[], {}, map[];
  }

  lemma Once(s: State, a: Action)
    requires ValidRun(s, [a])
    ensures Enabled(s, a) && After(s, [a]) == Step(s, a)
  {
    hide Step, Enabled;
    assert [a][1..] == [];
  }

  /** What a crash leaves of a Session depends on its host only. */
  lemma CrashForgetsTheProcess(s: State, cut: (nat, bool))
    requires ValidRun(s, [Crashes(cut.0, cut.1)])
    ensures Survives(s.host, cut)
    ensures After(s, [Crashes(cut.0, cut.1)]) == State(false, None, false, None, Remains(s.host, cut))
  {
    Once(s, Crashes(cut.0, cut.1));
  }

  lemma StartAndDispose(s: State)
    ensures ValidRun(s, [DoStart]) && After(s, [DoStart]) == StartRuntime(s)
    ensures ValidRun(s, [DoDispose]) && After(s, [DoDispose]) == DisposeRuntime(s)
  {
    hide StartRuntime, DisposeRuntime;
    assert [DoStart][1..] == [] && [DoDispose][1..] == [];
  }

  /** One event, for the whole process. */
  method Happen(r: ApiRecoveryRuntime, event: Event)
    requires Sound(r.hosts.Keys, event)
    requires forall sid | sid in r.hosts :: ValidRun(r.Slice(sid), Seen(event, sid))
    modifies r
    ensures r.hosts.Keys == old(r.hosts.Keys)
    ensures forall sid | sid in r.hosts :: r.Slice(sid) == After(old(r.Slice(sid)), Seen(event, sid))
  {
    hide StartRuntime, DisposeRuntime, Remains, Crash, Step, Enabled, Survives;
    match event
    case At(sid, action) =>
      Once(r.Slice(sid), action);
      Perform(r, sid, action);
    case StartAll =>
      forall sid | sid in r.hosts { StartAndDispose(r.Slice(sid)); }
      r.Start();
    case DisposeAll =>
      forall sid | sid in r.hosts { StartAndDispose(r.Slice(sid)); }
      r.Dispose();
    case CrashAll(cuts) =>
      forall sid | sid in r.hosts { CrashForgetsTheProcess(r.Slice(sid), cuts[sid]); }
      CrashProcess(r, cuts);
  }

  /**
   Whatever happens to the process, each Session's fields are where the machine
   leads, and so in a state every theorem about reachable states speaks of.
   */
  method Execute(r: ApiRecoveryRuntime, script: seq<Event>)
    requires forall event <- script :: Sound(r.hosts.Keys, event)
    requires forall sid | sid in r.hosts :: ValidRun(r.Slice(sid), Projected(script, sid))
    modifies r
    ensures r.hosts.Keys == old(r.hosts.Keys)
    ensures forall sid | sid in r.hosts :: r.Slice(sid) == After(old(r.Slice(sid)), Projected(script, sid))
    ensures forall sid | sid in r.hosts && old(Initial(r.Slice(sid))) :: Inv(r.Slice(sid))
    decreases |script|
  {
    hide Step, Enabled, Initial, Inv;
    forall sid | sid in r.hosts && Initial(r.Slice(sid))
      ensures Inv(After(r.Slice(sid), Projected(script, sid)))
    {
      ReachableIsGood(r.Slice(sid), Projected(script, sid));
    }
    if script == [] { return; }
    forall sid | sid in r.hosts
      ensures ValidRun(r.Slice(sid), Seen(script[0], sid))
      ensures ValidRun(After(r.Slice(sid), Seen(script[0], sid)), Projected(script[1..], sid))
      ensures After(r.Slice(sid), Projected(script, sid))
              == After(After(r.Slice(sid), Seen(script[0], sid)), Projected(script[1..], sid))
    {
      RunSplits(r.Slice(sid), script, sid);
    }
    Happen(r, script[0]);
    Execute(r, script[1..]);
  }

  lemma RunSplits(s: State, script: seq<Event>, sid: string)
    requires script != [] && ValidRun(s, Projected(script, sid))
    ensures ValidRun(s, Seen(script[0], sid))
    ensures ValidRun(After(s, Seen(script[0], sid)), Projected(script[1..], sid))
    ensures After(s, Projected(script, sid)) == After(After(s, Seen(script[0], sid)), Projected(script[1..], sid))
  {
    hide Step, Enabled;
    var rest := Projected(script[1..], sid);
    if Seen(script[0], sid) == [] {
      assert [] + rest == rest;
    } else {
      var a := Seen(script[0], sid)[0];
      assert Projected(script, sid)[0] == a && Projected(script, sid)[1..] == rest;
      assert Seen(script[0], sid) == [a] && [a][1..] == [];
    }
  }
}

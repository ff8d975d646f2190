/** The pushing thread never gets stuck: in every reachable state it has a step, and a block whose logs
    are well-formed can be carried to its end. */
module Progress {
  import opened Eth
  import opened Service
  import opened Sessions
  import opened Pusher
  import opened System
  import opened ServiceSafety
  import opened Runs

  // Callbacks and registration steps left for the log being dispatched.
  function Left(st: State): nat
    requires Wf(st) && st.block.Dispatching?
  {
    4 * |st.block.todo| + |Owed(st)| +
    if st.block.reg.Some? && st.block.reg.value.stage <= 2 then 3 - st.block.reg.value.stage else 0
  }

  // An owed service callback can run: it returns, or throws if the log is malformed.
  lemma ServiceReady(cfg: Config, st: State, k: nat)
    requires cfg.Valid() && Reachable(cfg, st) && st.block.Dispatching? && st.block.reg.None? && k in st.block.todo
    ensures DispatchEnabled(cfg, st, CallService(k)) || DispatchEnabled(cfg, st, ThrowService(k))
    ensures !Malformed(cfg, Current(st).log) ==> DispatchEnabled(cfg, st, CallService(k))
  {
    ReachableService(cfg, st);
    FoldShape(cfg, st.history[..|st.history| - 1]);
    ListenersStay(cfg, Base(cfg, st), Current(st), st.block.todo);
    if DispatchEnabled(cfg, st, ThrowService(k)) {
      ServiceThrow(cfg, st, k);
    }
  }

  lemma ListenersStay(cfg: Config, base: ServiceState, e: Entry, todo: set<nat>)
    requires |base.listeners| > 0
    ensures |Partial(cfg, base, e, todo, None).listeners| >= |base.listeners|
  {}

  lemma SessionReady(cfg: Config, st: State, s: nat)
    requires cfg.Valid() && Reachable(cfg, st) && st.block.Dispatching? && st.block.reg.None? && s in Owed(st)
    ensures DispatchEnabled(cfg, st, CallSession(s)) || DispatchEnabled(cfg, st, ThrowSession(s))
    ensures !Malformed(cfg, Current(st).log) ==> DispatchEnabled(cfg, st, CallSession(s))
  {
    ReachableConservation(cfg, st);
    ReachableService(cfg, st);
    if DispatchEnabled(cfg, st, ThrowSession(s)) {
      SessionThrow(cfg, st, s);
    }
  }

  // The next step of a dispatch: without a malformed log it ends the dispatch or leaves less to do.
  lemma NextDispatch(cfg: Config, st: State) returns (d: DispatchStep)
    requires cfg.Valid() && Reachable(cfg, st) && st.block.Dispatching?
    ensures DispatchEnabled(cfg, st, d) && !d.BeginLog?
    ensures !Malformed(cfg, Current(st).log) ==> !d.ThrowService? && !d.ThrowSession?
    ensures d.EndLog? ==> st.block.reg.None? && st.block.todo == {} && Owed(st) == {}
  {
    if st.block.reg.Some? {
      return RegStep;
    } else if st.block.todo != {} {
      var k :| k in st.block.todo;
      ServiceReady(cfg, st, k);
      return if DispatchEnabled(cfg, st, CallService(k)) then CallService(k) else ThrowService(k);
    } else if Owed(st) != {} {
      var s :| s in Owed(st);
      SessionReady(cfg, st, s);
      return if DispatchEnabled(cfg, st, CallSession(s)) then CallSession(s) else ThrowSession(s);
    } else {
      return EndLog;
    }
  }

  // Whatever state the system is in, the pushing thread can move on.
  lemma NeverStuck(cfg: Config, st: State) returns (a: Action)
    requires cfg.Valid() && Reachable(cfg, st)
    ensures Enabled(cfg, st, a) && !a.Client? && Do(cfg, st, a) != st
  {
    match st.block
    case Idle => a := IdleMoves(cfg, st);
    case Between(_, _) => a := BetweenMoves(cfg, st);
    case Dispatching(_, _, _, _) => a := DispatchMoves(cfg, st);
  }

  lemma DispatchMoves(cfg: Config, st: State) returns (a: Action)
    requires cfg.Valid() && Reachable(cfg, st) && st.block.Dispatching?
    ensures Enabled(cfg, st, a) && !a.Client? && Do(cfg, st, a) != st
  {
    var d := NextDispatch(cfg, st);
    a := Dispatch(d);
    DoKeepsWf(cfg, st, a);
    RemainingFalls(cfg, st, a);
  }

  lemma IdleMoves(cfg: Config, st: State) returns (a: Action)
    requires Wf(st) && st.block.Idle?
    ensures Enabled(cfg, st, a) && !a.Client? && Do(cfg, st, a) != st
  {
    var g := Height(st.push.cursor, Some(st.push.cursor));
    a := Host(if st.push.inHand.None? then Fetch(g) else Begin([]));
    assert InHand(st.push.cursor, g) == Some(st.push.cursor);
  }

  lemma BetweenMoves(cfg: Config, st: State) returns (a: Action)
    requires cfg.Valid() && Reachable(cfg, st) && st.block.Between?
    ensures Enabled(cfg, st, a) && !a.Client? && Do(cfg, st, a) != st
  {
    ReachableNumbers(cfg, st);
    a := if st.block.rest == [] then Host(End(true)) else Dispatch(BeginLog);
  }

  // The most steps that the dispatch under way still takes.
  function Remaining(st: State): nat
    requires Wf(st)
  {
    if st.block.Dispatching? then Left(st) + 1 else 0
  }

  lemma RemainingFalls(cfg: Config, st: State, a: Action)
    requires cfg.Valid() && Reachable(cfg, st) && Enabled(cfg, st, a) && Wf(st) && Wf(Do(cfg, st, a))
    requires a != Dispatch(BeginLog)
    ensures Remaining(Do(cfg, st, a)) + (if a.Dispatch? then 1 else 0) <= Remaining(st)
  {
    if a.Dispatch? {
      ReachableService(cfg, st);
      match a.d
      case CallService(k) => CallbackLeavesLess(cfg, st, k);
      case RegStep => RegStepLeavesLess(cfg, st);
      case CallSession(s) => DeliveryLeavesLess(cfg, st, s);
      case _ =>
    }
  }

  function DispatchSteps(acts: seq<Action>): nat {
    if acts == [] then 0 else
    DispatchSteps(acts[..|acts| - 1]) + if acts[|acts| - 1].Dispatch? then 1 else 0
  }

  // However the other threads interleave, one log's dispatch takes no more than Left + 1 steps.
  lemma {:induction false} DispatchBounded(cfg: Config, from: State, acts: seq<Action>)
    requires cfg.Valid() && Reachable(cfg, from) && Wf(from) && ExecFrom(cfg, from, acts).Some?
    requires Dispatch(BeginLog) !in acts
    ensures Remaining(ExecFrom(cfg, from, acts).value) + DispatchSteps(acts) <= Remaining(from)
  {
    if acts != [] {
      var before := acts[..|acts| - 1];
      DispatchBounded(cfg, from, before);
      ReachableRun(cfg, from, before);
      RemainingFalls(cfg, ExecFrom(cfg, from, before).value, acts[|acts| - 1]);
    }
  }

  // While a log is dispatched only the service, the queues of sessions and the callbacks owed change.
  ghost predicate OnlyDispatch(st: State, t: State) {
    && t.last == st.last && t.ord == st.ord && t.push == st.push && t.history == st.history
    && OnlyQueues(st.sessions, t.sessions)
  }

  ghost predicate OnlyQueues(before: map<nat, Session>, after: map<nat, Session>) {
    && before.Keys == after.Keys
    && forall s | s in before :: after[s].(pending := before[s].pending) == before[s]
  }

  lemma CallbackLeavesLess(cfg: Config, st: State, k: nat)
    requires DispatchEnabled(cfg, st, CallService(k))
    ensures var t := RunCallback(cfg, st, k);
            && Wf(t) && t.block.Dispatching? && Left(t) < Left(st) && OnlyDispatch(st, t)
            && t.block.num == st.block.num && t.block.rest == st.block.rest
  {
    assert |st.block.todo - {k}| == |st.block.todo| - 1;
  }

  lemma RegStepLeavesLess(cfg: Config, st: State)
    requires DispatchEnabled(cfg, st, RegStep) && st.block.reg.value.stage <= 2
    ensures var t := RegistrationStep(cfg, st);
            && Wf(t) && t.block.Dispatching? && Left(t) < Left(st) && OnlyDispatch(st, t)
            && t.block.num == st.block.num && t.block.rest == st.block.rest
  {}

  lemma DeliveryLeavesLess(cfg: Config, st: State, s: nat)
    requires DispatchEnabled(cfg, st, CallSession(s))
    ensures var t := RunSession(cfg, st, s);
            && Wf(t) && t.block.Dispatching? && Left(t) < Left(st) && OnlyDispatch(st, t)
            && t.block.num == st.block.num && t.block.rest == st.block.rest
  {
    assert |Owed(st) - {s}| == |Owed(st)| - 1;
  }

  // The dispatch of a well-formed log can be carried to its end.
  lemma FinishLog(cfg: Config, st: State) returns (t: State)
    requires cfg.Valid() && Reachable(cfg, st) && st.block.Dispatching? && !Malformed(cfg, Current(st).log)
    ensures Reachable(cfg, t) && t.block == Between(st.block.num, st.block.rest) && OnlyDispatch(st, t)
    decreases Left(st)
  {
    ReachableService(cfg, st);
    var d := NextDispatch(cfg, st);
    ReachableStep(cfg, st, Dispatch(d));
    match d {
      case EndLog =>
        return DispatchDo(cfg, st, d);
      case CallService(k) => CallbackLeavesLess(cfg, st, k);
      case RegStep => RegStepLeavesLess(cfg, st);
      case CallSession(s) => DeliveryLeavesLess(cfg, st, s);
    }
    t := FinishLog(cfg, DispatchDo(cfg, st, d));
  }

  predicate WellFormed(cfg: Config, logs: seq<Log>) {
    forall i | 0 <= i < |logs| :: !Malformed(cfg, logs[i])
  }

  // The logs of a block that are still to come can all be dispatched.
  lemma FinishLogs(cfg: Config, st: State) returns (t: State)
    requires cfg.Valid() && Reachable(cfg, st) && st.block.Between? && WellFormed(cfg, st.block.rest)
    ensures Reachable(cfg, t) && t.block == Between(st.block.num, [])
    ensures t.last == st.last && t.ord == st.ord && t.push == st.push && OnlyQueues(st.sessions, t.sessions)
    ensures t.history == st.history + Entries(st.block.num, st.ord, st.block.rest)
    decreases |st.block.rest|
  {
    var logs := st.block.rest;
    if logs == [] {
      t := st;
    } else {
      var a := FinishNext(cfg, st);
      t := FinishLogs(cfg, a);
      EntriesFirst(st.block.num, st.ord, logs);
    }
  }

  lemma FinishNext(cfg: Config, st: State) returns (t: State)
    requires cfg.Valid() && Reachable(cfg, st) && st.block.Between? && st.block.rest != []
    requires !Malformed(cfg, st.block.rest[0])
    ensures Reachable(cfg, t) && t.block == Between(st.block.num, st.block.rest[1..])
    ensures t.last == st.last && t.ord == st.ord && t.push == st.push && OnlyQueues(st.sessions, t.sessions)
    ensures t.history == st.history + [Entry(st.block.num, st.ord, st.block.rest[0])]
  {
    ReachableService(cfg, st);
    ReachableStep(cfg, st, Dispatch(BeginLog));
    t := FinishLog(cfg, StartLog(st));
  }

  // What a block changes.
  ghost predicate AfterBlock(st: State, header: nat, logs: seq<Log>, t: State) {
    && t.block.Idle? && t.last == Blk(header) && t.ord == st.ord + 1
    && t.history == st.history + Entries(header, st.ord + 1, logs)
    && OnlyQueues(st.sessions, t.sessions)
    && t.push == st.push.(cursor := Bump(st.push.cursor), pushed := st.push.pushed + [header], honest := t.push.honest)
  }

  // The header is the one that is asked for, and the cursor can still rise.
  predicate Honest(p: Push, header: nat) {
    p.honest && header == p.cursor && p.cursor + 1 < TWO_TO_THE_64
  }

  // Geth returns a header, asked for or not, and its block's processing begins.
  lemma EnterBlock(cfg: Config, st: State, header: nat, logs: seq<Log>) returns (t: State)
    requires Reachable(cfg, st) && st.block.Idle? && st.push.inHand.None?
    ensures Reachable(cfg, t) && t.block == Between(header, logs)
    ensures t.last == Blk(header) && t.ord == st.ord + 1 && t.sessions == st.sessions
    ensures t.history == st.history && t.missed == st.missed && t.svc == st.svc
    ensures t.push == st.push.(inHand := Some(header), honest := t.push.honest)
    ensures t.push.honest <== Honest(st.push, header)
  {
    var fetch, begin := Fetch(Height(st.push.cursor, Some(header))), Begin(logs);
    ReachableStep(cfg, st, Host(fetch));
    var a := HostDo(st, fetch);
    ReachableStep(cfg, a, Host(begin));
    t := HostDo(a, begin);
  }

  lemma LeaveBlock(cfg: Config, st: State) returns (t: State)
    requires Reachable(cfg, st) && st.block.Between? && st.block.rest == [] && st.push.inHand.Some?
    ensures Reachable(cfg, t) && t == Leave(st, true)
  {
    ReachableStep(cfg, st, Host(End(true)));
    t := HostDo(st, End(true));
  }

  // From any state between blocks the next header can be pushed through, whatever number it carries and
  // whatever well-formed logs its block holds.
  lemma PushBlock(cfg: Config, st: State, header: nat, logs: seq<Log>) returns (t: State)
    requires cfg.Valid() && Reachable(cfg, st) && st.block.Idle? && st.push.inHand.None? && WellFormed(cfg, logs)
    ensures Reachable(cfg, t) && AfterBlock(st, header, logs, t)
    ensures t.push.honest <== Honest(st.push, header)
  {
    var a := EnterBlock(cfg, st, header, logs);
    var b := FinishLogs(cfg, a);
    t := LeaveBlock(cfg, b);
  }
}

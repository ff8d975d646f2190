/** Which logs a session can lose: exactly those on which somebody's callback throws. */
module Loss {
  import opened Eth
  import opened Service
  import opened Sessions
  import opened System
  import opened ServiceSafety
  import opened Conservation
  import opened Runs
  import opened Guarantees

  // ----- when a dispatch is cut off -----

  // Every callback of the service that is due for a malformed log throws on it.
  lemma DueThrows(cfg: Config, base: ServiceState, e: Entry, k: nat)
    requires cfg.Valid() && |base.listeners| > 0 && Shape(cfg, base)
    requires k in Due(base.listeners, e.log, e.ord) && Malformed(cfg, e.log)
    ensures ServiceThrows(cfg, base.listeners[k].kind, e.log)
  {
    DueByKind(cfg, base, e.log, e.ord);
  }

  lemma MalformedPubsub(cfg: Config, f: Filter, i: nat, log: Log)
    requires cfg.Valid() && f.topics == [cfg.notifyTopic] && Wanted(f, i, log) && Malformed(cfg, log)
    ensures cfg.decodeMsg(log.data).None?
  {
    FirstTopic(cfg, log);
  }

  predicate ThrowEnabled(cfg: Config, st: State, d: DispatchStep) {
    (d.ThrowService? || d.ThrowSession?) && DispatchEnabled(cfg, st, d)
  }

  // While a log is dispatched a throw is possible exactly when a listener of the service or a pub/sub
  // session hears the log and the log is malformed; its dispatch then cannot end otherwise.
  lemma ThrowExact(cfg: Config, st: State)
    requires cfg.Valid() && Reachable(cfg, st) && st.block.Dispatching?
    ensures (exists d :: ThrowEnabled(cfg, st, d)) <==> CutsOff(cfg, st.sessions, st.history, |st.history| - 1)
    ensures DispatchEnabled(cfg, st, EndLog) ==> !CutsOff(cfg, st.sessions, st.history, |st.history| - 1)
  {
    if d :| ThrowEnabled(cfg, st, d) {
      ReachableService(cfg, st);
      ReachableConservation(cfg, st);
      ThrowCutsOff(cfg, st, d);
    }
    if CutsOff(cfg, st.sessions, st.history, |st.history| - 1) {
      var d := CutOffThrows(cfg, st);
    }
  }

  lemma CutOffThrows(cfg: Config, st: State) returns (d: DispatchStep)
    requires cfg.Valid() && Reachable(cfg, st) && st.block.Dispatching?
    requires CutsOff(cfg, st.sessions, st.history, |st.history| - 1)
    ensures ThrowEnabled(cfg, st, d) && !DispatchEnabled(cfg, st, EndLog)
  {
    ReachableService(cfg, st);
    ReachableConservation(cfg, st);
    d := ThrowReady(cfg, st);
  }

  lemma ThrowReady(cfg: Config, st: State) returns (d: DispatchStep)
    requires cfg.Valid() && ServiceInv(cfg, st) && OwedInv(cfg, st) && ThrowersOwed(cfg, st)
    requires st.block.Dispatching? && CutsOff(cfg, st.sessions, st.history, |st.history| - 1)
    ensures ThrowEnabled(cfg, st, d)
    ensures st.block.todo != {} || Owed(st) != {}
  {
    if k :| k in Due(Base(cfg, st).listeners, Current(st).log, Current(st).ord) {
      ServiceThrowReady(cfg, st, k);
      d := ThrowService(k);
    } else {
      var t :| t in st.sessions && Hears(st.sessions[t], |st.history| - 1, Current(st).log);
      SessionThrowReady(cfg, st, t);
      d := ThrowSession(t);
    }
  }

  lemma ServiceThrowReady(cfg: Config, st: State, k: nat)
    requires cfg.Valid() && ServiceInv(cfg, st) && st.block.Dispatching? && Malformed(cfg, Current(st).log)
    requires k in Due(Base(cfg, st).listeners, Current(st).log, Current(st).ord)
    ensures DispatchEnabled(cfg, st, ThrowService(k))
  {
    FoldShape(cfg, st.history[..|st.history| - 1]);
    FirstTopic(cfg, Current(st).log);
    PartialMalformed(cfg, Base(cfg, st), Current(st), st.block.todo);
    DueThrows(cfg, Base(cfg, st), Current(st), k);
  }

  lemma SessionThrowReady(cfg: Config, st: State, t: nat)
    requires cfg.Valid() && ServiceInv(cfg, st) && OwedInv(cfg, st) && ThrowersOwed(cfg, st)
    requires st.block.Dispatching? && Malformed(cfg, Current(st).log)
    requires t in st.sessions && Hears(st.sessions[t], |st.history| - 1, Current(st).log)
    ensures DispatchEnabled(cfg, st, ThrowSession(t))
  {
    FirstTopic(cfg, Current(st).log);
    MalformedPubsub(cfg, st.sessions[t].filter, |st.history| - 1, Current(st).log);
  }

  // ----- what later steps leave alone -----

  // No step changes who heard an earlier log.
  lemma HearsStep(cfg: Config, st: State, a: Action, t: nat, i: nat)
    requires AllConserved(cfg, st) && Enabled(cfg, st, a) && i < |st.history|
    ensures t in Do(cfg, st, a).sessions && Hears(Do(cfg, st, a).sessions[t], i, st.history[i].log) <==>
            t in st.sessions && Hears(st.sessions[t], i, st.history[i].log)
  {
    match a
    case Host(h) => assert HostDo(st, h).sessions == st.sessions;
    case Client(s, step) => HearsOwn(cfg, st, s, step, i);
    case Dispatch(d) => DispatchFrame(cfg, st, d);
  }

  lemma HistoryStep(cfg: Config, st: State, a: Action)
    requires Enabled(cfg, st, a)
    ensures st.history <= Do(cfg, st, a).history
  {
    if a.Dispatch? {
      DispatchFrame(cfg, st, a.d);
    }
  }

  // What a log cut off stays so, among all sessions and among those without some.
  lemma CutsOffStepWithout(cfg: Config, st: State, a: Action, gone: set<nat>, i: nat)
    requires AllConserved(cfg, st) && Enabled(cfg, st, a) && i < |st.history|
    ensures i < |Do(cfg, st, a).history|
    ensures CutsOff(cfg, st.sessions - gone, st.history, i) <==>
            CutsOff(cfg, Do(cfg, st, a).sessions - gone, Do(cfg, st, a).history, i)
  {
    HistoryStep(cfg, st, a);
    forall t ensures t in Do(cfg, st, a).sessions && Hears(Do(cfg, st, a).sessions[t], i, st.history[i].log) <==>
                     t in st.sessions && Hears(st.sessions[t], i, st.history[i].log)
    {
      HearsStep(cfg, st, a, t, i);
    }
    CutsOffStays(cfg, st.sessions - gone, Do(cfg, st, a).sessions - gone, st.history, Do(cfg, st, a).history, i);
  }

  lemma CutsOffStep(cfg: Config, st: State, a: Action, i: nat)
    requires AllConserved(cfg, st) && Enabled(cfg, st, a) && i < |st.history|
    ensures i < |Do(cfg, st, a).history|
    ensures CutsOff(cfg, st.sessions, st.history, i) <==>
            CutsOff(cfg, Do(cfg, st, a).sessions, Do(cfg, st, a).history, i)
  {
    CutsOffStepWithout(cfg, st, a, {}, i);
    assert st.sessions - {} == st.sessions && Do(cfg, st, a).sessions - {} == Do(cfg, st, a).sessions;
  }

  lemma {:induction false} CutsOffRun(cfg: Config, from: State, acts: seq<Action>, i: nat)
    requires cfg.Valid() && Reachable(cfg, from) && Wf(from) && ExecFrom(cfg, from, acts).Some? && i < |from.history|
    ensures var st := ExecFrom(cfg, from, acts).value;
            && i < |st.history|
            && (CutsOff(cfg, from.sessions, from.history, i) <==> CutsOff(cfg, st.sessions, st.history, i))
  {
    if acts != [] {
      var before := acts[..|acts| - 1];
      CutsOffRun(cfg, from, before, i);
      ReachableRun(cfg, from, before);
      ReachableConservation(cfg, ExecFrom(cfg, from, before).value);
      CutsOffStep(cfg, ExecFrom(cfg, from, before).value, acts[|acts| - 1], i);
    }
  }

  // ----- losing a log -----

  // The dispatch of log i is over, session s wanted the log, and its callback has not run.
  predicate Lost(cfg: Config, st: State, s: nat, i: nat)
    requires Wf(st)
  {
    && Over(st, i) && s in st.sessions && !st.sessions[s].phase.LookedUp?
    && Wanted(st.sessions[s].filter, i, st.history[i].log)
    && Items(cfg, st.sessions[s].filter.want, st.history[i]) != []
    && s in st.missed[i]
  }

  // Where a log is lost the session has not received every matching log; between logs it otherwise has.
  lemma LostIsMissing(cfg: Config, st: State, s: nat)
    requires cfg.Valid() && Reachable(cfg, st) && s in st.sessions && !st.sessions[s].phase.LookedUp? && Wf(st)
    ensures (exists i: nat :: Lost(cfg, st, s, i)) ==>
              Received(st.sessions[s]) != Ideal(cfg, st.sessions[s].filter, st.history)
    ensures !st.block.Dispatching? && (forall i: nat :: !Lost(cfg, st, s, i)) ==>
              Received(st.sessions[s]) == Ideal(cfg, st.sessions[s].filter, st.history)
  {
    var f := st.sessions[s].filter;
    DeliveryExact(cfg, st, s);
    if i: nat :| Lost(cfg, st, s, i) {
      assert s in st.missed[i];
    }
    if !st.block.Dispatching? && Received(st.sessions[s]) != Ideal(cfg, f, st.history) {
      var i: nat :| i < |st.history| && s in st.missed[i] && Wanted(f, i, st.history[i].log)
                    && Items(cfg, f.want, st.history[i]) != [];
      assert Lost(cfg, st, s, i);
    }
  }

  // What is over stays as it is.
  lemma OverStep(cfg: Config, st: State, a: Action, i: nat)
    requires Wf(st) && Enabled(cfg, st, a) && Over(st, i)
    ensures Wf(Do(cfg, st, a)) && Over(Do(cfg, st, a), i)
    ensures Do(cfg, st, a).history[i] == st.history[i] && Do(cfg, st, a).missed[i] == st.missed[i]
  {
    DoKeepsWf(cfg, st, a);
    if a.Dispatch? {
      DispatchFrame(cfg, st, a.d);
    }
  }

  lemma WantedStays(cfg: Config, st: State, a: Action, s: nat, i: nat)
    requires AllConserved(cfg, st) && Enabled(cfg, st, a) && i < |st.history|
    requires s in st.sessions && !st.sessions[s].phase.LookedUp? && Wanted(st.sessions[s].filter, i, st.history[i].log)
    ensures s in Do(cfg, st, a).sessions && !Do(cfg, st, a).sessions[s].phase.LookedUp?
    ensures Wanted(Do(cfg, st, a).sessions[s].filter, i, st.history[i].log)
    ensures Do(cfg, st, a).sessions[s].filter.want == st.sessions[s].filter.want
  {
    match a
    case Host(h) => assert HostDo(st, h).sessions == st.sessions;
    case Dispatch(d) => DispatchKeepsFilter(cfg, st, d, s);
    case Client(t, step) =>
      if t == s {
        OwnWantedStays(cfg, st, s, step, i);
      }
  }

  lemma DispatchKeepsFilter(cfg: Config, st: State, d: DispatchStep, s: nat)
    requires DispatchEnabled(cfg, st, d) && s in st.sessions
    ensures var sessions := DispatchDo(cfg, st, d).sessions;
            && s in sessions && sessions[s].filter == st.sessions[s].filter
            && sessions[s].phase == st.sessions[s].phase
  {
    DispatchFrame(cfg, st, d);
  }

  lemma OwnWantedStays(cfg: Config, st: State, s: nat, step: ClientStep, i: nat)
    requires AllConserved(cfg, st) && ClientEnabled(st, s, step) && i < |st.history|
    requires s in st.sessions && !st.sessions[s].phase.LookedUp? && Wanted(st.sessions[s].filter, i, st.history[i].log)
    ensures var sess := ClientDo(cfg, st, s, step);
            && !sess.phase.LookedUp? && Wanted(sess.filter, i, st.history[i].log)
            && sess.filter.want == st.sessions[s].filter.want
  {
    assert Conserved(cfg, s, st.sessions[s], st.history, st.missed);
  }

  // A lost log is never made up for.
  lemma LostForever(cfg: Config, st: State, a: Action, s: nat, i: nat)
    requires cfg.Valid() && Reachable(cfg, st) && Wf(st) && Enabled(cfg, st, a) && Lost(cfg, st, s, i)
    ensures Wf(Do(cfg, st, a)) && Lost(cfg, Do(cfg, st, a), s, i)
  {
    ReachableConservation(cfg, st);
    OverStep(cfg, st, a, i);
    WantedStays(cfg, st, a, s, i);
  }

  // Some callback due for a log would throw on it, asked before its dispatch begins.
  ghost predicate SomeoneThrows(cfg: Config, st: State, log: Log) {
    && Malformed(cfg, log)
    && (|| Due(st.svc.listeners, log, st.ord) != {}
        || exists t :: t in DueSessions(st.sessions, log) && st.sessions[t].filter.want.Pubsub?)
  }

  lemma SomeoneCutsOff(cfg: Config, st: State)
    requires cfg.Valid() && Reachable(cfg, st) && DispatchEnabled(cfg, st, BeginLog)
    ensures SomeoneThrows(cfg, st, st.block.rest[0]) <==> CutsOff(cfg, st.sessions, StartLog(st).history, |st.history|)
  {
    ReachableService(cfg, st);
    ReachableConservation(cfg, st);
    var log, h := st.block.rest[0], StartLog(st).history;
    assert h[..|st.history|] == st.history;
    forall t | t in st.sessions
      ensures Hears(st.sessions[t], |st.history|, log) <==>
              t in DueSessions(st.sessions, log) && st.sessions[t].filter.want.Pubsub?
    {
      assert Conserved(cfg, t, st.sessions[t], st.history, st.missed);
    }
  }

  // A receipt session that a log is for can lose it exactly when some callback due for the log throws on
  // it. That another subscriber or the service hears the log is then what costs the session the log.
  lemma CanLose(cfg: Config, st: State, s: nat)
    requires cfg.Valid() && Reachable(cfg, st) && DispatchEnabled(cfg, st, BeginLog) && Wf(StartLog(st))
    requires s in DueSessions(st.sessions, st.block.rest[0]) && st.sessions[s].filter.want.Receipts?
    ensures (exists acts :: ExecFrom(cfg, StartLog(st), acts).Some?
                            && Lost(cfg, ExecFrom(cfg, StartLog(st), acts).value, s, |st.history|))
            <==> SomeoneThrows(cfg, st, st.block.rest[0])
  {
    var t, i := StartLog(st), |st.history|;
    ReachableStep(cfg, st, Dispatch(BeginLog));
    SomeoneCutsOff(cfg, st);
    if acts :| ExecFrom(cfg, t, acts).Some? && Lost(cfg, ExecFrom(cfg, t, acts).value, s, i) {
      LossIsCutOff(cfg, t, acts, s, i);
    }
    if CutsOff(cfg, t.sessions, t.history, i) {
      var d := CutOffThrows(cfg, t);
      ThrowLoses(cfg, st, d, s);
      OneStep(cfg, t, Dispatch(d));
    }
  }

  lemma OneStep(cfg: Config, from: State, a: Action)
    requires Wf(from) && Enabled(cfg, from, a)
    ensures ExecFrom(cfg, from, [a]) == Some(Do(cfg, from, a))
  {
    assert [a][..0] == [];
  }

  lemma LossIsCutOff(cfg: Config, from: State, acts: seq<Action>, s: nat, i: nat)
    requires cfg.Valid() && Reachable(cfg, from) && Wf(from) && ExecFrom(cfg, from, acts).Some? && i < |from.history|
    requires Lost(cfg, ExecFrom(cfg, from, acts).value, s, i)
    ensures CutsOff(cfg, from.sessions, from.history, i)
  {
    ReachableRun(cfg, from, acts);
    ReachableConservation(cfg, ExecFrom(cfg, from, acts).value);
    CutsOffRun(cfg, from, acts, i);
  }

  lemma ThrowLoses(cfg: Config, st: State, d: DispatchStep, s: nat)
    requires cfg.Valid() && Reachable(cfg, st) && DispatchEnabled(cfg, st, BeginLog)
    requires ThrowEnabled(cfg, StartLog(st), d)
    requires s in DueSessions(st.sessions, st.block.rest[0]) && st.sessions[s].filter.want.Receipts?
    ensures Wf(DispatchDo(cfg, StartLog(st), d)) && Lost(cfg, DispatchDo(cfg, StartLog(st), d), s, |st.history|)
  {
    ReachableConservation(cfg, st);
    DispatchFrame(cfg, StartLog(st), d);
    assert Conserved(cfg, s, st.sessions[s], st.history, st.missed);
  }
}

/** The invariant of all runs. */
module Runs {
  import opened Eth
  import opened Service
  import opened Pusher
  import opened System
  import opened ServiceSafety
  import opened Conservation
  import opened Numbers
  import opened Handover

  ghost predicate Inv(cfg: Config, st: State) {
    ServiceInv(cfg, st) && ConservationInv(cfg, st) && NumbersInv(st) && OriginInv(cfg, st)
  }

  ghost predicate Reachable(cfg: Config, st: State) {
    exists start, acts :: Exec(cfg, start, acts) == Some(st)
  }

  lemma InvHost(cfg: Config, st: State, h: HostStep)
    requires cfg.Valid() && Inv(cfg, st) && HostEnabled(st, h)
    ensures Inv(cfg, HostDo(st, h))
  {
    ServiceHost(cfg, st, h);
    ConservationHost(cfg, st, h);
    NumbersHost(st, h);
    OriginHost(cfg, st, h);
  }

  lemma InvDispatch(cfg: Config, st: State, d: DispatchStep)
    requires cfg.Valid() && Inv(cfg, st) && DispatchEnabled(cfg, st, d)
    ensures Inv(cfg, DispatchDo(cfg, st, d))
  {
    ServiceDispatch(cfg, st, d);
    ConservationDispatch(cfg, st, d);
    NumbersDispatch(cfg, st, d);
    OriginDispatch(cfg, st, d);
  }

  lemma InvClient(cfg: Config, st: State, s: nat, step: ClientStep)
    requires cfg.Valid() && Inv(cfg, st) && ClientEnabled(st, s, step)
    ensures Inv(cfg, SetSession(cfg, st, s, step))
  {
    ServiceClient(cfg, st, s, step);
    ConservationClient(cfg, st, s, step);
    NumbersClient(cfg, st, s, step);
    OriginClient(cfg, st, s, step);
  }

  lemma InvStep(cfg: Config, st: State, a: Action)
    requires cfg.Valid() && Inv(cfg, st) && Enabled(cfg, st, a)
    ensures Inv(cfg, Do(cfg, st, a))
  {
    match a
    case Host(h) => InvHost(cfg, st, h);
    case Dispatch(d) => InvDispatch(cfg, st, d);
    case Client(s, step) => InvClient(cfg, st, s, step);
  }

  lemma {:induction false} InvRun(cfg: Config, start: BlockNumber, acts: seq<Action>)
    requires cfg.Valid() && Exec(cfg, start, acts).Some?
    ensures Inv(cfg, Exec(cfg, start, acts).value)
  {
    if acts != [] {
      InvRun(cfg, start, acts[..|acts| - 1]);
      InvStep(cfg, Exec(cfg, start, acts[..|acts| - 1]).value, acts[|acts| - 1]);
    }
  }

  lemma InvReachable(cfg: Config, st: State)
    requires cfg.Valid() && Reachable(cfg, st)
    ensures Inv(cfg, st)
  {
    var start, acts :| Exec(cfg, start, acts) == Some(st);
    InvRun(cfg, start, acts);
  }

  lemma ReachableInit(cfg: Config, start: BlockNumber)
    ensures Reachable(cfg, Init(cfg, start))
  {
    assert Exec(cfg, start, []) == Some(Init(cfg, start));
  }

  lemma ReachableStep(cfg: Config, st: State, a: Action)
    requires Reachable(cfg, st) && Enabled(cfg, st, a)
    ensures Reachable(cfg, Do(cfg, st, a))
  {
    var start, acts :| Exec(cfg, start, acts) == Some(st);
    assert (acts + [a])[..|acts|] == acts;
    assert Exec(cfg, start, acts + [a]) == Some(Do(cfg, st, a));
  }

  // A run that goes on from a reachable state.
  lemma {:induction false} ReachableRun(cfg: Config, from: State, acts: seq<Action>)
    requires Reachable(cfg, from) && Wf(from) && ExecFrom(cfg, from, acts).Some?
    ensures Reachable(cfg, ExecFrom(cfg, from, acts).value)
  {
    if acts != [] {
      ReachableRun(cfg, from, acts[..|acts| - 1]);
      ReachableStep(cfg, ExecFrom(cfg, from, acts[..|acts| - 1]).value, acts[|acts| - 1]);
    }
  }

  // Its parts, one at a time.
  lemma ReachableService(cfg: Config, st: State)
    requires cfg.Valid() && Reachable(cfg, st)
    ensures ServiceInv(cfg, st)
  {
    InvReachable(cfg, st);
  }

  lemma ReachableConservation(cfg: Config, st: State)
    requires cfg.Valid() && Reachable(cfg, st)
    ensures ConservationInv(cfg, st)
  {
    InvReachable(cfg, st);
  }

  lemma ReachableOrigin(cfg: Config, st: State)
    requires cfg.Valid() && Reachable(cfg, st)
    ensures OriginInv(cfg, st)
  {
    InvReachable(cfg, st);
  }

  lemma ReachableNumbers(cfg: Config, st: State)
    requires cfg.Valid() && Reachable(cfg, st)
    ensures NumbersInv(st)
  {
    InvReachable(cfg, st);
  }

  lemma ReachableSession(cfg: Config, st: State, s: nat)
    requires cfg.Valid() && Reachable(cfg, st) && s in st.sessions
    ensures Conserved(cfg, s, st.sessions[s], st.history, st.missed)
    ensures SessionNumbers(st, st.sessions[s]) && Origin(cfg, st.sessions[s], st.history)
  {
    InvReachable(cfg, st);
  }
}

/** One subscriber against the others: a run is, for everybody else, a run without it, as long as its callback
    throws only on logs that another one hears as well. */
module Isolation {
  import opened Eth
  import opened Service
  import opened ServiceHistory
  import opened Sessions
  import opened Pusher
  import opened System
  import opened ServiceSafety
  import opened Conservation
  import opened Handover
  import opened Runs
  import opened Loss

  function Without(missed: seq<set<nat>>, s: nat): (r: seq<set<nat>>)
    ensures |r| == |missed| && forall i | 0 <= i < |r| :: r[i] == missed[i] - {s}
  {
    seq(|missed|, i requires 0 <= i < |missed| => missed[i] - {s})
  }

  lemma WithoutUpdate(missed: seq<set<nat>>, n: nat, t: nat, s: nat)
    requires n < |missed|
    ensures Without(missed[n := missed[n] - {t}], s) == Without(missed, s)[n := missed[n] - {s} - {t}]
  {
    assert missed[n] - {t} - {s} == missed[n] - {s} - {t};
  }

  // The state as it would be had session s never existed.
  function Erase(st: State, s: nat): State {
    st.(sessions := st.sessions - {s}, missed := Without(st.missed, s))
  }

  predicate Concerns(a: Action, s: nat) {
    (a.Client? && a.s == s) || (a.Dispatch? && (a.d == CallSession(s) || a.d == ThrowSession(s)))
  }

  // A step of session s is invisible once it is erased.
  lemma OwnStepInvisible(cfg: Config, st: State, s: nat, step: ClientStep)
    requires ClientEnabled(st, s, step)
    ensures Erase(SetSession(cfg, st, s, step), s) == Erase(st, s)
  {}

  lemma OwnCallbackInvisible(cfg: Config, st: State, s: nat)
    requires DispatchEnabled(cfg, st, CallSession(s))
    ensures Erase(RunSession(cfg, st, s), s) == Erase(st, s)
  {
    var t := RunSession(cfg, st, s);
    assert t.sessions - {s} == st.sessions - {s};
    WithoutUpdate(st.missed, |st.history| - 1, s, s);
    assert Owed(st) - {s} - {s} == Owed(st) - {s};
  }

  // Any other step is the same step without session s.
  lemma ClientCommutes(cfg: Config, st: State, s: nat, t: nat, step: ClientStep)
    requires ClientEnabled(st, t, step) && t != s
    ensures ClientEnabled(Erase(st, s), t, step)
    ensures SetSession(cfg, Erase(st, s), t, step) == Erase(SetSession(cfg, st, t, step), s)
  {
    assert t in st.sessions ==> (st.sessions - {s})[t] == st.sessions[t];
    ClientSame(cfg, st, s, t, step);
    var sess := ClientDo(cfg, st, t, step);
    assert (st.sessions - {s})[t := sess] == st.sessions[t := sess] - {s};
  }

  lemma ClientSame(cfg: Config, st: State, s: nat, t: nat, step: ClientStep)
    requires ClientEnabled(st, t, step) && t != s
    ensures ClientEnabled(Erase(st, s), t, step)
    ensures ClientDo(cfg, Erase(st, s), t, step) == ClientDo(cfg, st, t, step)
  {}

  lemma HostCommutes(st: State, s: nat, h: HostStep)
    requires HostEnabled(st, h)
    ensures HostEnabled(Erase(st, s), h) && HostDo(Erase(st, s), h) == Erase(HostDo(st, h), s)
  {}

  lemma BeginLogCommutes(st: State, s: nat)
    requires Wf(st) && st.block.Between? && st.block.rest != []
    ensures StartLog(Erase(st, s)) == Erase(StartLog(st), s)
  {
    var log := st.block.rest[0];
    assert DueSessions(st.sessions - {s}, log) == DueSessions(st.sessions, log) - {s};
    assert Without(st.missed, s) + [DueSessions(st.sessions, log) - {s}] ==
           Without(st.missed + [DueSessions(st.sessions, log)], s);
  }

  lemma DeliveryCommutes(cfg: Config, st: State, s: nat, t: nat)
    requires DispatchEnabled(cfg, st, CallSession(t)) && t != s
    ensures DispatchEnabled(cfg, Erase(st, s), CallSession(t))
    ensures RunSession(cfg, Erase(st, s), t) == Erase(RunSession(cfg, st, t), s)
  {
    var n, sess := |st.history| - 1, st.sessions[t];
    var sess' := Delivered(sess, Items(cfg, sess.filter.want, Current(st)));
    assert (st.sessions - {s})[t := sess'] == st.sessions[t := sess'] - {s};
    WithoutUpdate(st.missed, n, t, s);
  }

  lemma CallbackCommutes(cfg: Config, st: State, s: nat, d: DispatchStep)
    requires DispatchEnabled(cfg, st, d) && (d.CallService? || d.RegStep?)
    ensures DispatchEnabled(cfg, Erase(st, s), d)
    ensures DispatchDo(cfg, Erase(st, s), d) == Erase(DispatchDo(cfg, st, d), s)
  {
    assert Current(Erase(st, s)) == Current(st);
  }

  lemma EndCommutes(cfg: Config, st: State, s: nat, d: DispatchStep)
    requires DispatchEnabled(cfg, st, d) && (d.EndLog? || d.ThrowService? || (d.ThrowSession? && d.s != s))
    ensures DispatchEnabled(cfg, Erase(st, s), d)
    ensures DispatchDo(cfg, Erase(st, s), d) == Erase(DispatchDo(cfg, st, d), s)
  {
    assert Current(Erase(st, s)) == Current(st);
  }

  lemma DispatchCommutes(cfg: Config, st: State, s: nat, d: DispatchStep)
    requires DispatchEnabled(cfg, st, d) && !Concerns(Dispatch(d), s)
    ensures DispatchEnabled(cfg, Erase(st, s), d)
    ensures DispatchDo(cfg, Erase(st, s), d) == Erase(DispatchDo(cfg, st, d), s)
  {
    match d
    case BeginLog => BeginLogCommutes(st, s);
    case CallService(_) => CallbackCommutes(cfg, st, s, d);
    case RegStep => CallbackCommutes(cfg, st, s, d);
    case CallSession(t) => DeliveryCommutes(cfg, st, s, t);
    case _ => EndCommutes(cfg, st, s, d);
  }

  // Where session s throws, a past listener of its event manager throws as well.
  lemma PastThrowsToo(cfg: Config, st: State, s: nat) returns (k: nat)
    requires cfg.Valid() && cfg.seesRest && Reachable(cfg, st) && DispatchEnabled(cfg, st, ThrowSession(s))
    ensures DispatchEnabled(cfg, st, ThrowService(k))
  {
    ReachableService(cfg, st);
    ReachableConservation(cfg, st);
    ReachableOrigin(cfg, st);
    var h, sess, e, base := st.history, st.sessions[s], Current(st), Base(cfg, st);
    var before := h[..|h| - 1];
    FoldShape(cfg, before);
    DueByKind(cfg, base, e.log, e.ord);
    assert IsNotify(cfg, e.log) && e.log.addr == sess.filter.addr;
    ManagerRegistered(cfg, st, s);
    PastListenersCount(cfg, before, e.log.addr, e.ord);
    k :| k in PastDue(base.listeners, e.log.addr, e.ord);
    assert st.svc == base;
  }

  // The event manager of a listening session is registered before the log being dispatched.
  lemma ManagerRegistered(cfg: Config, st: State, s: nat)
    requires cfg.Valid() && cfg.seesRest && OriginInv(cfg, st) && OwedInv(cfg, st)
    requires st.block.Dispatching? && s in Owed(st) && st.sessions[s].filter.want.Pubsub?
    ensures Registrations(cfg, st.history[..|st.history| - 1], st.sessions[s].filter.addr, Current(st).ord) >= 1
  {
    var h, sess := st.history, st.sessions[s];
    var f, before := sess.filter, h[..|h| - 1];
    assert Origin(cfg, sess, h) && f.since <= |before|;
    var k := if f.addr == LastRegistered(cfg, h[..sess.looked], sess.pub) then sess.looked else sess.looked - 1;
    LookupRegistered(cfg, h[..k], sess.pub, Current(st).ord);
    assert before[..k] == h[..k];
    RegistrationsGrow(cfg, before, k, f.addr, Current(st).ord);
  }

  // A listener of the service, or a pub/sub session other than s, hears the log being dispatched.
  ghost predicate OthersHear(cfg: Config, st: State, s: nat)
    requires Wf(st) && st.block.Dispatching?
  {
    || Due(Base(cfg, st).listeners, Current(st).log, Current(st).ord) != {}
    || exists t :: t in st.sessions && t != s && Hears(st.sessions[t], |st.history| - 1, Current(st).log)
  }

  lemma OtherThrows(cfg: Config, st: State, s: nat) returns (d: DispatchStep)
    requires cfg.Valid() && Reachable(cfg, st) && DispatchEnabled(cfg, st, ThrowSession(s)) && OthersHear(cfg, st, s)
    ensures ThrowEnabled(cfg, st, d) && !Concerns(Dispatch(d), s)
  {
    ReachableService(cfg, st);
    ReachableConservation(cfg, st);
    SessionThrow(cfg, st, s);
    if k :| k in Due(Base(cfg, st).listeners, Current(st).log, Current(st).ord) {
      ServiceThrowReady(cfg, st, k);
      d := ThrowService(k);
    } else {
      var t :| t in st.sessions && t != s && Hears(st.sessions[t], |st.history| - 1, Current(st).log);
      SessionThrowReady(cfg, st, t);
      d := ThrowSession(t);
    }
  }

  // In the system without session s, action b does what action a does with it.
  ghost predicate StandsFor(cfg: Config, st: State, s: nat, a: Action, b: Action)
    requires Enabled(cfg, st, a)
  {
    !Concerns(b, s) && Enabled(cfg, Erase(st, s), b) && Do(cfg, Erase(st, s), b) == Erase(Do(cfg, st, a), s)
  }

  // A throw of session s is matched by a step of the others exactly when another one hears the log.
  lemma ThrowMatched(cfg: Config, st: State, s: nat)
    requires cfg.Valid() && Reachable(cfg, st) && DispatchEnabled(cfg, st, ThrowSession(s))
    ensures (exists b :: StandsFor(cfg, st, s, Dispatch(ThrowSession(s)), b)) <==> OthersHear(cfg, st, s)
  {
    if OthersHear(cfg, st, s) {
      var d := OtherThrows(cfg, st, s);
      EndCommutes(cfg, st, s, d);
      assert StandsFor(cfg, st, s, Dispatch(ThrowSession(s)), Dispatch(d));
    }
    if b :| StandsFor(cfg, st, s, Dispatch(ThrowSession(s)), b) {
      MatchThrows(cfg, st, s, b);
    }
  }

  lemma MatchThrows(cfg: Config, st: State, s: nat, b: Action)
    requires cfg.Valid() && Reachable(cfg, st) && DispatchEnabled(cfg, st, ThrowSession(s))
    requires StandsFor(cfg, st, s, Dispatch(ThrowSession(s)), b)
    ensures OthersHear(cfg, st, s)
  {
    LeavesByThrow(cfg, Erase(st, s), b);
    if b.d.ThrowService? {
      ReachableService(cfg, st);
      assert b.d.k in st.block.todo;
    } else {
      ReachableConservation(cfg, st);
      assert b.d.s in Owed(st) - {s} && b.d.s in st.sessions - {s};
      assert Hears(st.sessions[b.d.s], |st.history| - 1, Current(st).log);
    }
  }

  lemma LeavesByThrow(cfg: Config, st: State, b: Action)
    requires st.block.Dispatching? && Enabled(cfg, st, b) && Do(cfg, st, b).block.Idle?
    ensures b.Dispatch? && (b.d.ThrowService? || b.d.ThrowSession?) && DispatchEnabled(cfg, st, b.d)
  {
    if b.Dispatch? {
      DispatchFrame(cfg, st, b.d);
    }
  }

  // One step with session s is at most one step without it, and the same one where the environment acts.
  lemma StepWithout(cfg: Config, st: State, s: nat, a: Action) returns (b: seq<Action>)
    requires cfg.Valid() && Reachable(cfg, st) && Enabled(cfg, st, a)
    requires a == Dispatch(ThrowSession(s)) ==> OthersHear(cfg, st, s)
    ensures b == [] ==> !a.Host? && Erase(Do(cfg, st, a), s) == Erase(st, s)
    ensures b != [] ==> |b| == 1 && StandsFor(cfg, st, s, a, b[0]) && (a.Host? || b[0].Host? ==> b[0] == a)
  {
    match a
    case Host(h) =>
      HostCommutes(st, s, h);
      b := [a];
    case Client(t, step) =>
      if t == s {
        OwnStepInvisible(cfg, st, s, step);
        b := [];
      } else {
        ClientCommutes(cfg, st, s, t, step);
        b := [a];
      }
    case Dispatch(d) =>
      b := DispatchWithout(cfg, st, s, d);
  }

  lemma DispatchWithout(cfg: Config, st: State, s: nat, d: DispatchStep) returns (b: seq<Action>)
    requires cfg.Valid() && Reachable(cfg, st) && DispatchEnabled(cfg, st, d)
    requires d == ThrowSession(s) ==> OthersHear(cfg, st, s)
    ensures b == [] ==> Erase(DispatchDo(cfg, st, d), s) == Erase(st, s)
    ensures b != [] ==> |b| == 1 && StandsFor(cfg, st, s, Dispatch(d), b[0]) && !b[0].Host?
  {
    if d == CallSession(s) {
      OwnCallbackInvisible(cfg, st, s);
      b := [];
    } else if d == ThrowSession(s) {
      var other := OtherThrows(cfg, st, s);
      EndCommutes(cfg, st, s, other);
      b := [Dispatch(other)];
    } else {
      DispatchCommutes(cfg, st, s, d);
      b := [Dispatch(d)];
    }
  }

  // The environment's part of a run: what Geth answers and which blocks are processed.
  function Hosts(acts: seq<Action>): seq<Action> {
    if acts == [] then [] else
    Hosts(acts[..|acts| - 1]) + if acts[|acts| - 1].Host? then [acts[|acts| - 1]] else []
  }

  // Whenever session s throws in the run, another one hears the log as well.
  ghost predicate ThrowsShared(cfg: Config, start: BlockNumber, acts: seq<Action>, s: nat) {
    forall i | 0 <= i < |acts| && acts[i] == Dispatch(ThrowSession(s)) ::
      && Exec(cfg, start, acts[..i]).Some?
      && var st := Exec(cfg, start, acts[..i]).value; st.block.Dispatching? && OthersHear(cfg, st, s)
  }

  // Failure isolation: for such a run there is a run without session s, failing or not, on the same blocks
  // that ends in the same state but for s: same service, same history, same sessions of everybody else.
  lemma {:induction false} RunWithout(cfg: Config, start: BlockNumber, acts: seq<Action>, s: nat)
      returns (b: seq<Action>)
    requires cfg.Valid() && Exec(cfg, start, acts).Some? && ThrowsShared(cfg, start, acts, s)
    ensures Exec(cfg, start, b) == Some(Erase(Exec(cfg, start, acts).value, s)) && Hosts(b) == Hosts(acts)
    ensures forall i | 0 <= i < |b| :: !Concerns(b[i], s)
  {
    if acts == [] {
      b := [];
      assert Without([], s) == [];
      assert Erase(Init(cfg, start), s).sessions == Init(cfg, start).sessions;
    } else {
      var n := |acts| - 1;
      var st := Exec(cfg, start, acts[..n]).value;
      assert Reachable(cfg, st);
      SharedBefore(cfg, start, acts, s, n);
      b := RunWithout(cfg, start, acts[..n], s);
      var c := StepWithout(cfg, st, s, acts[n]);
      if c != [] {
        assert (b + c)[..|b|] == b && (b + c)[|b|] == c[0];
        b := b + c;
      }
    }
  }

  lemma SharedBefore(cfg: Config, start: BlockNumber, acts: seq<Action>, s: nat, n: nat)
    requires n <= |acts| && ThrowsShared(cfg, start, acts, s)
    ensures ThrowsShared(cfg, start, acts[..n], s)
  {
    forall i | 0 <= i < n ensures acts[..n][..i] == acts[..i] && acts[..n][i] == acts[i] {}
  }

  // Where a callback's listener sees the rest of its block, that is every run.
  lemma {:induction false} SeesRestShares(cfg: Config, start: BlockNumber, acts: seq<Action>, s: nat)
    requires cfg.Valid() && cfg.seesRest && Exec(cfg, start, acts).Some?
    ensures ThrowsShared(cfg, start, acts, s)
  {
    if acts != [] {
      var n := |acts| - 1;
      SeesRestShares(cfg, start, acts[..n], s);
      if acts[n] == Dispatch(ThrowSession(s)) {
        var st := Exec(cfg, start, acts[..n]).value;
        assert Reachable(cfg, st);
        SeesRestHears(cfg, st, s);
      }
      SharedAfter(cfg, start, acts, s);
    }
  }

  lemma SharedAfter(cfg: Config, start: BlockNumber, acts: seq<Action>, s: nat)
    requires acts != [] && ThrowsShared(cfg, start, acts[..|acts| - 1], s)
    requires Exec(cfg, start, acts[..|acts| - 1]).Some?
    requires acts[|acts| - 1] == Dispatch(ThrowSession(s)) ==>
               var st := Exec(cfg, start, acts[..|acts| - 1]).value; st.block.Dispatching? && OthersHear(cfg, st, s)
    ensures ThrowsShared(cfg, start, acts, s)
  {
    var n := |acts| - 1;
    assert forall i | 0 <= i < n :: acts[..n][..i] == acts[..i] && acts[..n][i] == acts[i];
  }

  lemma SeesRestHears(cfg: Config, st: State, s: nat)
    requires cfg.Valid() && cfg.seesRest && Reachable(cfg, st) && DispatchEnabled(cfg, st, ThrowSession(s))
    ensures OthersHear(cfg, st, s)
  {
    var k := PastThrowsToo(cfg, st, s);
    ReachableService(cfg, st);
    assert k in Due(Base(cfg, st).listeners, Current(st).log, Current(st).ord);
  }
}

/** Concrete runs of the protocol's less usual turns: a heartbeat that fails, and a registration between its
    steps. */
module Scenarios {
  import opened Eth
  import opened Service
  import opened Sessions
  import opened Pusher
  import opened System
  import opened ServiceSafety
  import opened Runs
  import opened Guarantees
  import opened Progress
  import opened Counterexamples
  import opened Messages

  // ----- a failed heartbeat -----

  // Two receipt sessions listen to the same contract, which has one log in each of two blocks. The heartbeat
  // of the first session fails between them: of the second log only the other session has a receipt.
  lemma FailedHeartbeatRun(cfg: Config, start: BlockNumber, log: Log, header: nat, header2: nat) returns (st: State)
    requires cfg.Valid() && !Malformed(cfg, log)
    ensures Reachable(cfg, st) && 0 in st.sessions && 1 in st.sessions
    ensures st.history == [Entry(header, 1, log), Entry(header2, 2, log)]
    ensures st.sessions[0].sent == [] && Received(st.sessions[0]) == [Rc(header, log.topics, log.data)]
    ensures Received(st.sessions[1]) == [Rc(header, log.topics, log.data), Rc(header2, log.topics, log.data)]
  {
    var a := FailedAfterOne(cfg, start, log, header);
    st := NextBlock(cfg, a, log, header2, Some(1));
    BothReceived(cfg, st, log);
  }

  lemma FailedAfterOne(cfg: Config, start: BlockNumber, log: Log, header: nat) returns (st: State)
    requires cfg.Valid() && !Malformed(cfg, log)
    ensures Reachable(cfg, st) && TwoSessions(st, log.addr, Some(1))
    ensures st.block.Idle? && st.push.inHand.None? && st.ord == 1 && st.history == [Entry(header, 1, log)]
  {
    var a := TwoReceiptSessions(cfg, start, log.addr);
    var b := NextBlock(cfg, a, log, header, None);
    st := FirstFails(cfg, b, log.addr);
  }

  lemma NextBlock(cfg: Config, st: State, log: Log, header: nat, until: Option<nat>) returns (t: State)
    requires cfg.Valid() && Reachable(cfg, st) && st.block.Idle? && st.push.inHand.None? && !Malformed(cfg, log)
    requires TwoSessions(st, log.addr, until)
    ensures Reachable(cfg, t) && t.block.Idle? && t.push.inHand.None? && t.ord == st.ord + 1 && Wf(t)
    ensures t.history == st.history + [Entry(header, st.ord + 1, log)]
    ensures TwoSessions(t, log.addr, until) && t.sessions[0].phase == st.sessions[0].phase
  {
    t := PushBlock(cfg, st, header, [log]);
    ReachableService(cfg, t);
  }

  predicate TwoSessions(st: State, addr: Addr, until: Option<nat>) {
    && 0 in st.sessions && 1 in st.sessions
    && st.sessions[0].sent == [] && st.sessions[0].filter == Filter(Receipts, addr, [], 0, until)
    && st.sessions[1].filter == Filter(Receipts, addr, [], 0, None)
    && !st.sessions[0].phase.LookedUp? && !st.sessions[1].phase.LookedUp?
  }

  lemma FirstFails(cfg: Config, st: State, addr: Addr) returns (t: State)
    requires cfg.Valid() && Reachable(cfg, st) && Wf(st) && st.block.Idle? && st.push.inHand.None?
    requires |st.history| == 1 && TwoSessions(st, addr, None) && st.sessions[0].phase.Waiting?
    ensures Reachable(cfg, t) && TwoSessions(t, addr, Some(1))
    ensures t.block.Idle? && t.push.inHand.None? && t.ord == st.ord && t.history == st.history
  {
    var beat := [Client(0, DrainQueue), Client(0, Fail), Client(0, CancelListener)];
    FailedHeartbeat(cfg, st, 0);
    ReachableRun(cfg, st, beat);
    t := ExecFrom(cfg, st, beat).value;
    ReachableSession(cfg, t, 0);
  }

  lemma BothReceived(cfg: Config, st: State, log: Log)
    requires cfg.Valid() && Reachable(cfg, st) && st.block.Idle? && TwoSessions(st, log.addr, Some(1))
    requires |st.history| == 2 && st.history[0].log == st.history[1].log == log && !Malformed(cfg, log)
    ensures Received(st.sessions[0]) == [Rc(st.history[0].blk, log.topics, log.data)]
    ensures Received(st.sessions[1]) ==
            [Rc(st.history[0].blk, log.topics, log.data), Rc(st.history[1].blk, log.topics, log.data)]
  {
    ReceivedReceipts(cfg, st, 0, log);
    ReceivedReceipts(cfg, st, 1, log);
    TwoReceipts(cfg, st.sessions[0].filter, st.history);
    TwoReceipts(cfg, st.sessions[1].filter, st.history);
  }

  lemma ReceivedReceipts(cfg: Config, st: State, s: nat, log: Log)
    requires cfg.Valid() && Reachable(cfg, st) && st.block.Idle? && s in st.sessions && !Malformed(cfg, log)
    requires !st.sessions[s].phase.LookedUp? && st.sessions[s].filter.want.Receipts?
    requires forall i | 0 <= i < |st.history| :: st.history[i].log == log
    ensures Received(st.sessions[s]) == Ideal(cfg, st.sessions[s].filter, st.history)
  {
    DeliveryComplete(cfg, st, s);
  }

  lemma TwoReceipts(cfg: Config, f: Filter, h: seq<Entry>)
    requires |h| == 2 && f.want.Receipts? && f.topics == [] && h[0].log.addr == h[1].log.addr == f.addr && f.since == 0
    requires f.until == None || f.until == Some(1)
    ensures Ideal(cfg, f, h) == [Rc(h[0].blk, h[0].log.topics, h[0].log.data)] +
            if f.until.None? then [Rc(h[1].blk, h[1].log.topics, h[1].log.data)] else []
  {
    assert h[..1][..0] == [] && h[..1][0] == h[0];
    assert Ideal(cfg, f, h[..1][..0]) == [];
    assert Ideal(cfg, f, h[..1]) == [Rc(h[0].blk, h[0].log.topics, h[0].log.data)];
  }

  lemma TwoReceiptSessions(cfg: Config, start: BlockNumber, addr: Addr) returns (st: State)
    ensures Reachable(cfg, st) && st.block.Idle? && st.push.inHand.None? && st.ord == 0 && st.history == []
    ensures TwoSessions(st, addr, None) && st.sessions[0].phase.Waiting?
  {
    ReachableInit(cfg, start);
    var step := SubscribeReceipts(addr, []);
    ReachableStep(cfg, Init(cfg, start), Client(0, step));
    var a := SetSession(cfg, Init(cfg, start), 0, step);
    ReachableStep(cfg, a, Client(1, step));
    st := SetSession(cfg, a, 1, step);
  }

  // ----- a registration between its steps -----

  // The map names the event manager before it has a queue, and it has a queue before its notifications are
  // listened to; each is seen by whoever looks at that moment.
  lemma RegistrationSteps(cfg: Config, start: BlockNumber, pub: Addr, mgr: Addr)
      returns (mapped: State, queued: State, listened: State)
    requires cfg.Valid() && start + 2 < TWO_TO_THE_64
    ensures Reachable(cfg, mapped) && Reachable(cfg, queued) && Reachable(cfg, listened)
    ensures EventMgrOf(mapped.svc, pub) == mgr && mgr !in mapped.svc.backlog
    ensures EventMgrOf(queued.svc, pub) == mgr && mgr in queued.svc.backlog
    ensures forall ord: nat :: PastDue(queued.svc.listeners, mgr, ord) == {}
    ensures mgr in listened.svc.backlog && PastDue(listened.svc.listeners, mgr, 3) != {}
  {
    var a := InRegistration(cfg, start, pub, mgr);
    mapped := NextRegStep(cfg, a);
    queued := NextRegStep(cfg, mapped);
    listened := NextRegStep(cfg, queued);
    assert 2 in PastDue(listened.svc.listeners, mgr, 3);
  }

  lemma NextRegStep(cfg: Config, st: State) returns (t: State)
    requires Reachable(cfg, st) && DispatchEnabled(cfg, st, RegStep) && st.block.reg.value.stage <= 2
    ensures Reachable(cfg, t) && Wf(t) && t.block.Dispatching? && Current(t) == Current(st)
    ensures var r := st.block.reg.value;
            && t.block.reg == (if r.stage < 2 then Some(r.(stage := r.stage + 1)) else None)
            && (r.stage == 0 ==> t.svc == st.svc.(mgrOf := st.svc.mgrOf[r.pub := r.mgr]))
            && (r.stage == 1 && r.mgr !in st.svc.backlog ==> t.svc == st.svc.(backlog := st.svc.backlog[r.mgr := []]))
            && (r.stage == 2 ==> t.svc == st.svc.(listeners := t.svc.listeners)
                                 && t.svc.listeners == st.svc.listeners +
                                      [PastListener(cfg, r.mgr, CallbackSince(cfg, Current(st).ord))])
  {
    RegistrationStepShape(cfg, st);
    ReachableStep(cfg, st, Dispatch(RegStep));
    t := RegistrationStep(cfg, st);
  }

  // The callback of the first registration has begun.
  lemma InRegistration(cfg: Config, start: BlockNumber, pub: Addr, mgr: Addr) returns (st: State)
    requires cfg.Valid() && start + 2 < TWO_TO_THE_64
    ensures Reachable(cfg, st) && st.block.Dispatching? && st.block.reg == Some(Registering(pub, mgr, 0))
    ensures Wf(st) && Current(st).ord == 2 && st.svc.backlog == map[]
    ensures |st.svc.listeners| == 2 && forall k | 0 <= k < 2 :: !st.svc.listeners[k].kind.Past?
  {
    var r := RegistrationLog(cfg, pub, mgr);
    RegistrationParses(cfg, pub, mgr);
    var a := Deployed(cfg, start);
    var b := EnterBlock(cfg, a, start + 1, [r]);
    JustDeployed(cfg, b, start);
    DueByKind(cfg, b.svc, r, 2);
    ReachableStep(cfg, b, Dispatch(BeginLog));
    var c := StartLog(b);
    assert 1 in c.block.todo;
    ReachableStep(cfg, c, Dispatch(CallService(1)));
    st := RunCallback(cfg, c, 1);
  }

  lemma JustDeployed(cfg: Config, st: State, start: nat)
    requires cfg.Valid() && Reachable(cfg, st) && st.block.Between? && st.history == Blocks(start, [DeployLog(cfg)])
    ensures st.svc == OnDeploy(cfg, Started(cfg), 0, 1) && Shape(cfg, st.svc) && RegActive(st.svc, 2)
  {
    var d := DeployLog(cfg);
    ReachableService(cfg, st);
    FoldShape(cfg, st.history);
    BlocksPush(start, [], d);
    assert [] + [d] == [d] && Blocks(start, []) == [];
    assert st.history == [Entry(start, 1, d)] && st.history[..0] == [];
    assert Fold(cfg, []) == Started(cfg);
  }
}

/** Concrete runs in which the code does less than a reader might expect: events in a first response that
    are newer than its number, events that a backlog holds twice, a header pushed that was not asked for, a
    receipt that is lost, an event that is live but never in the backlog, and a subscriber's failure that
    costs others the rest of a block. */
module Counterexamples {
  import opened Eth
  import opened Abi
  import opened Service
  import opened ServiceHistory
  import opened Sessions
  import opened Pusher
  import opened System
  import opened Runs
  import opened Handover
  import opened Guarantees
  import opened Loss
  import opened Isolation
  import opened IsolationLimits
  import opened Progress

  function DeployLog(cfg: Config): Log {
    Log(cfg.pubsub, [cfg.deployTopic, PadAddress(cfg.pubsub)], [])
  }

  function RegistrationLog(cfg: Config, pub: Addr, mgr: Addr): Log {
    Log(cfg.pubsub, [cfg.regTopic], PadAddress(pub) + PadAddress(mgr))
  }

  function NotifyLog(cfg: Config, mgr: Addr, data: Bytes): Log {
    Log(mgr, [cfg.notifyTopic], data)
  }

  lemma RegistrationParses(cfg: Config, pub: Addr, mgr: Addr)
    requires cfg.Valid()
    ensures !Malformed(cfg, DeployLog(cfg)) && IsDeploy(cfg, DeployLog(cfg))
    ensures !Malformed(cfg, RegistrationLog(cfg, pub, mgr)) && IsRegistration(cfg, RegistrationLog(cfg, pub, mgr))
    ensures !IsDeploy(cfg, RegistrationLog(cfg, pub, mgr)) && !IsNotify(cfg, RegistrationLog(cfg, pub, mgr))
    ensures DecodeRegistration(RegistrationLog(cfg, pub, mgr).data) == Some(Registrant(pub, mgr))
  {
    FirstTopic(cfg, DeployLog(cfg));
    FirstTopic(cfg, RegistrationLog(cfg, pub, mgr));
    var words := PadAddress(pub) + PadAddress(mgr);
    assert words[..64] == words;
    RegistrationRoundTrip(pub, mgr, words);
  }

  lemma NotificationParses(cfg: Config, mgr: Addr, data: Bytes)
    requires cfg.Valid() && cfg.decodeMsg(data).Some?
    ensures !Malformed(cfg, NotifyLog(cfg, mgr, data)) && IsNotify(cfg, NotifyLog(cfg, mgr, data))
    ensures !IsDeploy(cfg, NotifyLog(cfg, mgr, data)) && !IsRegistration(cfg, NotifyLog(cfg, mgr, data))
  {
    FirstTopic(cfg, NotifyLog(cfg, mgr, data));
  }

  // Logs in consecutive blocks, one each.
  function Blocks(start: nat, logs: seq<Log>): (h: seq<Entry>)
    ensures |h| == |logs|
  {
    if logs == [] then [] else
    Blocks(start, logs[..|logs| - 1]) + [Entry(start + |logs| - 1, |logs|, logs[|logs| - 1])]
  }

  lemma BlocksPush(start: nat, logs: seq<Log>, log: Log)
    ensures Blocks(start, logs + [log]) == Blocks(start, logs) + [Entry(start + |logs|, |logs| + 1, log)]
  {
    assert (logs + [log])[..|logs|] == logs;
  }

  // Between blocks, after these.
  ghost predicate Pushed(cfg: Config, st: State, start: nat, logs: seq<Log>) {
    && Reachable(cfg, st) && st.block.Idle? && st.push.inHand.None? && st.push.honest && st.push.smooth
    && st.history == Blocks(start, logs) && st.ord == |logs|
    && st.push.start == start && st.push.cursor == start + |logs|
    && (logs != [] ==> st.last == Blk(start + |logs| - 1))
  }

  lemma Push(cfg: Config, st: State, start: nat, logs: seq<Log>, log: Log) returns (t: State)
    requires cfg.Valid() && Pushed(cfg, st, start, logs) && start + |logs| + 1 < TWO_TO_THE_64 && !Malformed(cfg, log)
    ensures Pushed(cfg, t, start, logs + [log]) && OnlyQueues(st.sessions, t.sessions)
  {
    t := PushBlock(cfg, st, st.push.cursor, [log]);
    PushedMore(cfg, st, start, logs, log, t);
  }

  lemma PushedMore(cfg: Config, st: State, start: nat, logs: seq<Log>, log: Log, t: State)
    requires Pushed(cfg, st, start, logs) && start + |logs| + 1 < TWO_TO_THE_64
    requires Reachable(cfg, t) && AfterBlock(st, st.push.cursor, [log], t) && t.push.honest
    ensures Pushed(cfg, t, start, logs + [log])
  {
    BlocksPush(start, logs, log);
  }

  // ----- the histories -----

  // One more log, for each function of the history.
  lemma Extend(cfg: Config, h: seq<Entry>, e: Entry, mgr: Addr, pub: Bytes, ord: nat)
    ensures HeardFrom(cfg, h + [e]) ==
            match HeardFrom(cfg, h)
            case Some(o) => Some(o)
            case None => if IsDeploy(cfg, e.log) then Some(CallbackSince(cfg, e.ord)) else None
    ensures Registrations(cfg, h + [e], mgr, ord) == Registrations(cfg, h, mgr, ord) +
            match Registers(cfg, h, e)
            case Some(r) => if r.mgr == mgr && CallbackSince(cfg, e.ord) <= ord then 1 else 0
            case None => 0
    ensures Registers(cfg, h, e).Some? && Registers(cfg, h, e).value.pub == pub ==>
              LastRegistered(cfg, h + [e], pub) == Registers(cfg, h, e).value.mgr
    ensures !Notifies(cfg, mgr, e) ==> Replay(cfg, h + [e], mgr) == Replay(cfg, h, mgr)
    ensures !Notifies(cfg, mgr, e) ==> Once(cfg, h + [e], mgr) == Once(cfg, h, mgr)
  {
    assert (h + [e])[..|h|] == h;
  }

  lemma OneRegistration(cfg: Config, start: nat, pub: Addr, mgr: Addr, ord: nat)
    requires cfg.Valid()
    ensures var h := Blocks(start, [DeployLog(cfg), RegistrationLog(cfg, pub, mgr)]);
            && LastRegistered(cfg, h, pub) == mgr
            && Registrations(cfg, h, mgr, ord) == (if CallbackSince(cfg, 2) <= ord then 1 else 0)
            && HeardFrom(cfg, h) == Some(CallbackSince(cfg, 1))
            && Replay(cfg, h, mgr) == [] && Once(cfg, h, mgr) == []
  {
    RegistrationParses(cfg, pub, mgr);
    var d, r := DeployLog(cfg), RegistrationLog(cfg, pub, mgr);
    BlocksPush(start, [], d);
    BlocksPush(start, [d], r);
    assert [] + [d] == [d] && [d] + [r] == [d, r];
    var e1, e2 := Entry(start, 1, d), Entry(start + 1, 2, r);
    assert [] + [e1] == [e1];
    Extend(cfg, [], e1, mgr, pub, ord);
    Extend(cfg, [e1], e2, mgr, pub, ord);
    FirstTopic(cfg, d);
  }

  // ----- a number older than its events -----

  // The evaluation order of the arguments is open, so the number may be read first. Then a block with
  // a notification may be processed before the snapshot is taken, and the response that is sent
  // reports block start + 1 together with an event of block start + 2.
  lemma FirstResponseCanBeStale(cfg: Config, start: BlockNumber, pub: Addr, mgr: Addr, data: Bytes) returns (st: State)
    requires cfg.Valid() && cfg.decodeMsg(data).Some? && mgr != ZERO_ADDR && start + 3 < TWO_TO_THE_64
    ensures Reachable(cfg, st) && st.strict && 0 in st.sessions && st.sessions[0].hello.Some?
    ensures st.sessions[0].hello.value.num == Blk(start + 1)
    ensures st.sessions[0].hello.value.items == [Ev(start + 2, cfg.decodeMsg(data).value)]
    ensures !UpTo(st.sessions[0].hello.value.items, st.sessions[0].hello.value.num)
  {
    RegistrationParses(cfg, pub, mgr);
    NotificationParses(cfg, mgr, data);
    OneRegistration(cfg, start, pub, mgr, 3);
    var d, r, n := DeployLog(cfg), RegistrationLog(cfg, pub, mgr), NotifyLog(cfg, mgr, data);
    var s2 := Registered(cfg, start, pub, mgr);
    var s3 := NumberFirst(cfg, s2, start, pub, mgr, [d, r]);
    var s4 := Push(cfg, s3, start, [d, r], n);
    OneNotification(cfg, start, pub, mgr, data);
    st := SnapshotThenSend(cfg, s4, mgr);
    HonestOrder(cfg, st);
    assert !NotAfter(st.sessions[0].hello.value.items[0], st.sessions[0].hello.value.num);
  }

  lemma OneNotification(cfg: Config, start: nat, pub: Addr, mgr: Addr, data: Bytes)
    requires cfg.Valid() && cfg.decodeMsg(data).Some?
    ensures var registered := [DeployLog(cfg), RegistrationLog(cfg, pub, mgr)];
            Replay(cfg, Blocks(start, registered + [NotifyLog(cfg, mgr, data)]), mgr) ==
            [Ev(start + 2, cfg.decodeMsg(data).value)]
  {
    RegistrationParses(cfg, pub, mgr);
    NotificationParses(cfg, mgr, data);
    OneRegistration(cfg, start, pub, mgr, 3);
    var d, r, n := DeployLog(cfg), RegistrationLog(cfg, pub, mgr), NotifyLog(cfg, mgr, data);
    BlocksPush(start, [d, r], n);
    ReplayNotify(cfg, Blocks(start, [d, r]), Entry(start + 2, 3, n));
  }

  lemma Deployed(cfg: Config, start: BlockNumber) returns (st: State)
    requires cfg.Valid() && start + 1 < TWO_TO_THE_64
    ensures Pushed(cfg, st, start, [DeployLog(cfg)]) && st.sessions == map[]
  {
    FirstTopic(cfg, DeployLog(cfg));
    ReachableInit(cfg, start);
    assert [] + [DeployLog(cfg)] == [DeployLog(cfg)];
    st := Push(cfg, Init(cfg, start), start, [], DeployLog(cfg));
  }

  lemma Registered(cfg: Config, start: BlockNumber, pub: Addr, mgr: Addr) returns (st: State)
    requires cfg.Valid() && start + 2 < TWO_TO_THE_64
    ensures Pushed(cfg, st, start, [DeployLog(cfg), RegistrationLog(cfg, pub, mgr)]) && st.sessions == map[]
  {
    RegistrationParses(cfg, pub, mgr);
    var d, r := DeployLog(cfg), RegistrationLog(cfg, pub, mgr);
    assert [d] + [r] == [d, r];
    var s1 := Deployed(cfg, start);
    st := Push(cfg, s1, start, [d], r);
  }

  lemma ReplayNotify(cfg: Config, h: seq<Entry>, e: Entry)
    requires Notifies(cfg, e.log.addr, e) && Registrations(cfg, h, e.log.addr, e.ord) == 1
    requires Replay(cfg, h, e.log.addr) == []
    ensures Replay(cfg, h + [e], e.log.addr) == [Event(cfg, e)]
  {}

  // The first subscriber looks the event manager up and listens.
  lemma SubscribeAlone(cfg: Config, st: State, pub: Addr, mgr: Addr) returns (t: State)
    requires cfg.Valid() && Reachable(cfg, st) && !st.block.Dispatching? && st.sessions == map[]
    requires LastRegistered(cfg, st.history, pub) == mgr != ZERO_ADDR
    ensures Reachable(cfg, t) && t == st.(sessions := t.sessions) && t.sessions.Keys == {0}
    ensures t.sessions[0].filter == Filter(Pubsub, mgr, [cfg.notifyTopic], |st.history|, None)
    ensures t.sessions[0].phase == Responding(None, None)
    ensures ClientEnabled(st, 0, Lookup(pub)) && ClientEnabled(SetSession(cfg, st, 0, Lookup(pub)), 0, Listen)
    ensures t == SetSession(cfg, SetSession(cfg, st, 0, Lookup(pub)), 0, Listen)
  {
    ReachableService(cfg, st);
    LookupMeaning(cfg, st.history, pub);
    assert EventMgrOf(st.svc, pub) == mgr;
    ReachableStep(cfg, st, Client(0, Lookup(pub)));
    var a := SetSession(cfg, st, 0, Lookup(pub));
    ReachableStep(cfg, a, Client(0, Listen));
    t := SetSession(cfg, a, 0, Listen);
  }

  // A subscriber looks up, listens and reads the number.
  lemma NumberFirst(cfg: Config, st: State, start: nat, pub: Addr, mgr: Addr, logs: seq<Log>) returns (t: State)
    requires cfg.Valid() && Pushed(cfg, st, start, logs) && st.sessions == map[] && logs != []
    requires LastRegistered(cfg, st.history, pub) == mgr != ZERO_ADDR
    ensures Pushed(cfg, t, start, logs) && 0 in t.sessions && t.sessions[0].filter.addr == mgr
    ensures t.sessions[0].phase.Responding? && t.sessions[0].phase.past.None?
    ensures t.sessions[0].phase.num.Some? && t.sessions[0].phase.num.value.num == st.last
  {
    var a := SubscribeAlone(cfg, st, pub, mgr);
    ReachableStep(cfg, a, Client(0, ReadHelloNumber));
    t := SetSession(cfg, a, 0, ReadHelloNumber);
  }

  lemma SnapshotThenSend(cfg: Config, st: State, mgr: Addr) returns (t: State)
    requires cfg.Valid() && Reachable(cfg, st) && st.block.Idle? && 0 in st.sessions
    requires st.sessions[0].filter.addr == mgr && st.sessions[0].phase.Responding?
    requires st.sessions[0].phase.past.None? && st.sessions[0].phase.num.Some?
    ensures Reachable(cfg, t) && t.push == st.push && 0 in t.sessions && t.sessions[0].hello.Some?
    ensures t.sessions[0].hello.value.num == st.sessions[0].phase.num.value.num
    ensures t.sessions[0].hello.value.items == Replay(cfg, st.history, mgr)
  {
    ServiceRefinesFold(cfg, st);
    ReachableStep(cfg, st, Client(0, ReadPast));
    var a := SetSession(cfg, st, 0, ReadPast);
    ReachableStep(cfg, a, Client(0, Respond(true)));
    t := SetSession(cfg, a, 0, Respond(true));
  }

  // ----- an event recorded twice -----

  // Two publishers register with the same event manager; its next notification is in the backlog twice.
  lemma BacklogCanRepeat(cfg: Config, start: BlockNumber, pub: Addr, pub2: Addr, mgr: Addr, data: Bytes)
      returns (st: State)
    requires cfg.Valid() && cfg.decodeMsg(data).Some? && start + 4 < TWO_TO_THE_64
    ensures Reachable(cfg, st) && st.block.Idle?
    ensures var ev := Ev(start + 3, cfg.decodeMsg(data).value);
            PastOf(st.svc, mgr) == [ev, ev] && Once(cfg, st.history, mgr) == [ev]
  {
    RegistrationParses(cfg, pub, mgr);
    RegistrationParses(cfg, pub2, mgr);
    NotificationParses(cfg, mgr, data);
    var d, r, r2 := DeployLog(cfg), RegistrationLog(cfg, pub, mgr), RegistrationLog(cfg, pub2, mgr);
    var n := NotifyLog(cfg, mgr, data);
    var s2 := Registered(cfg, start, pub, mgr);
    var s3 := Push(cfg, s2, start, [d, r], r2);
    assert [d, r] + [r2] == [d, r, r2];
    st := Push(cfg, s3, start, [d, r, r2], n);
    assert [d, r, r2] + [n] == [d, r, r2, n];
    TwoRegistrations(cfg, start, pub, pub2, mgr, data);
    ServiceRefinesFold(cfg, st);
  }

  lemma TwoRegistrations(cfg: Config, start: nat, pub: Addr, pub2: Addr, mgr: Addr, data: Bytes)
    requires cfg.Valid() && cfg.decodeMsg(data).Some?
    ensures var r, r2, n := RegistrationLog(cfg, pub, mgr), RegistrationLog(cfg, pub2, mgr), NotifyLog(cfg, mgr, data);
            var h := Blocks(start, [DeployLog(cfg), r, r2, n]);
            var ev := Ev(start + 3, cfg.decodeMsg(data).value);
            Replay(cfg, h, mgr) == [ev, ev] && Once(cfg, h, mgr) == [ev]
  {
    RegistrationParses(cfg, pub, mgr);
    RegistrationParses(cfg, pub2, mgr);
    NotificationParses(cfg, mgr, data);
    OneRegistration(cfg, start, pub, mgr, 4);
    var d, r, r2 := DeployLog(cfg), RegistrationLog(cfg, pub, mgr), RegistrationLog(cfg, pub2, mgr);
    var n := NotifyLog(cfg, mgr, data);
    BlocksPush(start, [d, r], r2);
    BlocksPush(start, [d, r, r2], n);
    assert [d, r] + [r2] == [d, r, r2] && [d, r, r2] + [n] == [d, r, r2, n];
    var h2, e3, e4 := Blocks(start, [d, r]), Entry(start + 2, 3, r2), Entry(start + 3, 4, n);
    Extend(cfg, h2, e3, mgr, pub2, 4);
    var h3 := h2 + [e3];
    assert (h3 + [e4])[..|h3|] == h3;
    assert Copies(Event(cfg, e4), 2) == [Event(cfg, e4), Event(cfg, e4)];
  }

  // ----- a header that was not asked for -----

  // Nothing checks the number in the header that Geth returns: asked for block start, it may have any
  // other header pushed in its place.
  lemma AnyHeaderCanBePushed(cfg: Config, start: BlockNumber, header: nat) returns (st: State)
    requires cfg.Valid()
    ensures Reachable(cfg, st) && st.push.pushed == [header] && st.last == Blk(header)
    ensures InSequence(st.push) <==> header == start
  {
    ReachableInit(cfg, start);
    var a := EnterBlock(cfg, Init(cfg, start), header, []);
    st := LeaveBlock(cfg, a);
    assert [] + [header] == [header];
    OnePushInSequence(st.push, header);
  }

  lemma OnePushInSequence(p: Push, header: nat)
    requires p.pushed == [header]
    ensures InSequence(p) <==> header == p.start
  {
    assert NumberAt(p.start, 0) == p.start && p.pushed[0] == header;
  }

  // ----- a receipt that is lost -----

  function ShortRegistration(cfg: Config): Log {
    Log(cfg.pubsub, [cfg.regTopic], [])
  }

  // A receipt session listens to the service's contract. A block brings a registration log without data,
  // on which the service's callback throws, and another log. The session gets neither.
  lemma ReceiptCanBeLost(cfg: Config, start: BlockNumber, other: Log) returns (st: State)
    requires cfg.Valid() && start + 2 < TWO_TO_THE_64
    ensures Reachable(cfg, st) && st.block.Idle? && 0 in st.sessions && Lost(cfg, st, 0, 1)
    ensures st.history == Blocks(start, [DeployLog(cfg), ShortRegistration(cfg)])
    ensures Received(st.sessions[0]) == []
    ensures Ideal(cfg, st.sessions[0].filter, st.history) == [Rc(start + 1, [cfg.regTopic], [])]
  {
    var d, bad := DeployLog(cfg), ShortRegistration(cfg);
    var a := BeforeShort(cfg, start, other);
    ShortThrows(cfg, a, start, other);
    ReachableStep(cfg, a, Dispatch(BeginLog));
    SomeoneCutsOff(cfg, a);
    var t := StartLog(a);
    var step := CutOffThrows(cfg, t);
    ThrowLoses(cfg, a, step, 0);
    ReachableStep(cfg, t, Dispatch(step));
    DispatchFrame(cfg, t, step);
    st := DispatchDo(cfg, t, step);
    BlocksPush(start, [d], bad);
    assert [d] + [bad] == [d, bad];
    IdealOfLast(cfg, st.sessions[0].filter, st.history);
  }

  lemma IdealOfLast(cfg: Config, f: Filter, h: seq<Entry>)
    requires |h| > 0 && f.since == |h| - 1 && Wanted(f, |h| - 1, h[|h| - 1].log)
    ensures Ideal(cfg, f, h) == Items(cfg, f.want, h[|h| - 1])
  {
    IdealBeforeListen(cfg, f, h[..|h| - 1]);
  }

  // The contract is deployed, the session listens, and the block is about to dispatch its first log.
  lemma BeforeShort(cfg: Config, start: BlockNumber, other: Log) returns (st: State)
    requires cfg.Valid() && start + 2 < TWO_TO_THE_64
    ensures Reachable(cfg, st) && st.block == Between(start + 1, [ShortRegistration(cfg), other]) && st.ord == 2
    ensures st.history == Blocks(start, [DeployLog(cfg)])
    ensures 0 in st.sessions && st.sessions[0] == ReceiptSession(cfg.pubsub, [], 1)
  {
    var a := Deployed(cfg, start);
    var step := SubscribeReceipts(cfg.pubsub, []);
    ReachableStep(cfg, a, Client(0, step));
    var b := SetSession(cfg, a, 0, step);
    st := EnterBlock(cfg, b, start + 1, [ShortRegistration(cfg), other]);
  }

  lemma ShortThrows(cfg: Config, st: State, start: nat, other: Log)
    requires cfg.Valid() && Reachable(cfg, st) && st.block == Between(start + 1, [ShortRegistration(cfg), other])
    requires st.history == Blocks(start, [DeployLog(cfg)]) && st.ord == 2
    ensures SomeoneThrows(cfg, st, ShortRegistration(cfg))
  {
    var d, log := DeployLog(cfg), ShortRegistration(cfg);
    ServiceRefinesFold(cfg, st);
    BlocksPush(start, [], d);
    assert [] + [d] == [d];
    Extend(cfg, [], Entry(start, 1, d), d.addr, [], 2);
    DeployedMeaning(cfg, st.history, 2);
    FirstTopic(cfg, d);
    DueByKind(cfg, st.svc, log, 2);
    assert 1 in Due(st.svc.listeners, log, 2);
  }

  // ----- an event that is live and never recorded -----

  // Where a callback's listener waits for the next block, a subscriber can listen within the block that
  // registered its event manager. It gets the block's further notifications; the backlog does not.
  lemma LiveCanBeUnrecorded(cfg: Config, start: BlockNumber, pub: Addr, mgr: Addr, data: Bytes) returns (st: State)
    requires cfg.Valid() && !cfg.seesRest && cfg.decodeMsg(data).Some? && mgr != ZERO_ADDR
    requires start + 2 < TWO_TO_THE_64
    ensures Reachable(cfg, st) && st.block == Between(start + 1, []) && 0 in st.sessions
    ensures st.sessions[0].filter.addr == mgr && !SomeEach(cfg, st.history, st.sessions[0].filter)
    ensures Received(st.sessions[0]) == [Ev(start + 1, cfg.decodeMsg(data).value)] && PastOf(st.svc, mgr) == []
  {
    var n := NotifyLog(cfg, mgr, data);
    NotificationParses(cfg, mgr, data);
    var a := RegisteredJustNow(cfg, start, pub, mgr, [n]);
    var b := SubscribeAlone(cfg, a, pub, mgr);
    st := FinishNext(cfg, b);
    UnrecordedEvent(cfg, a.history, Entry(start + 1, 2, n), start, pub, mgr);
    ReachableService(cfg, st);
    BacklogMeaning(cfg, st.history, mgr);
    LastIsReceived(cfg, st, a.history, Entry(start + 1, 2, n));
  }

  lemma LastIsReceived(cfg: Config, st: State, h: seq<Entry>, e: Entry)
    requires cfg.Valid() && Reachable(cfg, st) && st.block.Between? && st.history == h + [e] && 0 in st.sessions
    requires st.sessions[0].filter == Filter(Pubsub, e.log.addr, [cfg.notifyTopic], |h|, None)
    requires st.sessions[0].phase.Responding? && Notifies(cfg, e.log.addr, e)
    requires Registrations(cfg, h, e.log.addr, e.ord) == 0
    ensures Received(st.sessions[0]) == [Event(cfg, e)] && !SomeEach(cfg, st.history, st.sessions[0].filter)
  {
    assert st.history[..|h|] == h && st.history[|h|] == e;
    DeliveryComplete(cfg, st, 0);
    IdealOfLast(cfg, st.sessions[0].filter, st.history);
  }

  lemma UnrecordedEvent(cfg: Config, h: seq<Entry>, e: Entry, start: nat, pub: Addr, mgr: Addr)
    requires cfg.Valid() && !cfg.seesRest && h == Blocks(start, [DeployLog(cfg), RegistrationLog(cfg, pub, mgr)])
    requires e.ord == 2 && Notifies(cfg, mgr, e)
    ensures Registrations(cfg, h, mgr, 2) == 0 && Replay(cfg, h + [e], mgr) == []
  {
    OneRegistration(cfg, start, pub, mgr, 2);
    assert (h + [e])[..|h|] == h;
  }

  // ----- a failure that others notice -----

  // Where a callback's listener waits for the next block, a subscriber can be the only one to hear a
  // notification: it subscribes within the block that registered the event manager. If the notification is
  // malformed its callback throws, and the rest of the block is lost to everybody. Without the subscriber
  // the same block goes on to its last log; no run without it ends like the one with it.
  lemma FailureCanSpread(cfg: Config, start: BlockNumber, pub: Addr, mgr: Addr, data: Bytes, other: Log)
      returns (acts: seq<Action>, b: seq<Action>)
    requires cfg.Valid() && !cfg.seesRest && cfg.decodeMsg(data).None? && mgr != ZERO_ADDR
    requires start + 2 < TWO_TO_THE_64
    ensures Exec(cfg, start, acts).Some? && Exec(cfg, start, b).Some? && Hosts(b) == Hosts(acts)
    ensures var before := Blocks(start, [DeployLog(cfg), RegistrationLog(cfg, pub, mgr)]);
            var bad, rest := Entry(start + 1, 2, NotifyLog(cfg, mgr, data)), Entry(start + 1, 2, other);
            && Exec(cfg, start, acts).value.history == before + [bad] && Exec(cfg, start, acts).value.block.Idle?
            && Exec(cfg, start, b).value.history == before + [bad, rest] && Exec(cfg, start, b).value.sessions == map[]
    ensures !exists c :: Counterpart(cfg, start, acts, 0, c)
  {
    var a := RegisteredJustNow(cfg, start, pub, mgr, [NotifyLog(cfg, mgr, data), other]);
    var acts0 := RunTo(cfg, start, a);
    acts := WithSubscriber(cfg, start, acts0, a, pub, mgr, data, other);
    b := WithoutSubscriber(cfg, start, acts0, a, pub, mgr, data, other);
    IsolatedExactly(cfg, start, acts, 0);
  }

  lemma {:induction false} StartKept(cfg: Config, start: BlockNumber, acts: seq<Action>)
    requires Exec(cfg, start, acts).Some?
    ensures Exec(cfg, start, acts).value.push.start == start
  {
    if acts != [] {
      StartKept(cfg, start, acts[..|acts| - 1]);
      var st, a := Exec(cfg, start, acts[..|acts| - 1]).value, acts[|acts| - 1];
      if a.Dispatch? {
        DispatchFrame(cfg, st, a.d);
      }
    }
  }

  lemma RunTo(cfg: Config, start: BlockNumber, st: State) returns (acts: seq<Action>)
    requires Reachable(cfg, st) && st.push.start == start
    ensures Exec(cfg, start, acts) == Some(st)
  {
    var from, run :| Exec(cfg, from, run) == Some(st);
    StartKept(cfg, from, run);
    acts := run;
  }

  lemma OneMore(cfg: Config, start: BlockNumber, acts: seq<Action>, a: Action)
    requires Exec(cfg, start, acts).Some? && Enabled(cfg, Exec(cfg, start, acts).value, a) && !a.Host?
    ensures Exec(cfg, start, acts + [a]) == Some(Do(cfg, Exec(cfg, start, acts).value, a))
    ensures Hosts(acts + [a]) == Hosts(acts)
  {
    assert (acts + [a])[..|acts|] == acts;
  }

  // The subscriber listens, is the only one to hear the notification, and throws.
  lemma WithSubscriber(cfg: Config, start: BlockNumber, acts0: seq<Action>, st: State, pub: Addr, mgr: Addr,
                       data: Bytes, other: Log) returns (acts: seq<Action>)
    requires cfg.Valid() && !cfg.seesRest && cfg.decodeMsg(data).None? && mgr != ZERO_ADDR
    requires Exec(cfg, start, acts0) == Some(st) && JustRegistered(cfg, start, st, pub, mgr)
    requires st.block == Between(start + 1, [NotifyLog(cfg, mgr, data), other])
    ensures Exec(cfg, start, acts).Some? && Hosts(acts) == Hosts(acts0)
    ensures Exec(cfg, start, acts).value.block.Idle?
    ensures Exec(cfg, start, acts).value.history == st.history + [Entry(start + 1, 2, NotifyLog(cfg, mgr, data))]
    ensures !ThrowsShared(cfg, start, acts, 0)
  {
    assert Reachable(cfg, st);
    var t := SubscribeAlone(cfg, st, pub, mgr);
    var before := TwoMore(cfg, start, acts0, Client(0, Lookup(pub)), Client(0, Listen));
    FirstTopic(cfg, NotifyLog(cfg, mgr, data));
    NobodyElse(cfg, t, start, pub, mgr, NotifyLog(cfg, mgr, data));
    HeardByOne(cfg, t, NotifyLog(cfg, mgr, data));
    OneMore(cfg, start, before, Dispatch(BeginLog));
    var throw := Dispatch(ThrowSession(0));
    OneMore(cfg, start, before + [Dispatch(BeginLog)], throw);
    acts := before + [Dispatch(BeginLog)] + [throw];
    assert acts[|acts| - 1] == throw && acts[..|acts| - 1] == before + [Dispatch(BeginLog)];
  }

  // Nobody hears the notification, and the next log's turn comes.
  lemma WithoutSubscriber(cfg: Config, start: BlockNumber, acts0: seq<Action>, st: State, pub: Addr, mgr: Addr,
                          data: Bytes, other: Log) returns (b: seq<Action>)
    requires cfg.Valid() && !cfg.seesRest
    requires Exec(cfg, start, acts0) == Some(st) && JustRegistered(cfg, start, st, pub, mgr)
    requires st.block == Between(start + 1, [NotifyLog(cfg, mgr, data), other])
    ensures Exec(cfg, start, b).Some? && Hosts(b) == Hosts(acts0) && Exec(cfg, start, b).value.sessions == map[]
    ensures Exec(cfg, start, b).value.history ==
            st.history + [Entry(start + 1, 2, NotifyLog(cfg, mgr, data)), Entry(start + 1, 2, other)]
  {
    assert Reachable(cfg, st);
    FirstTopic(cfg, NotifyLog(cfg, mgr, data));
    NobodyElse(cfg, st, start, pub, mgr, NotifyLog(cfg, mgr, data));
    var after := TwoMore(cfg, start, acts0, Dispatch(BeginLog), Dispatch(EndLog));
    OneMore(cfg, start, after, Dispatch(BeginLog));
    b := after + [Dispatch(BeginLog)];
  }

  lemma TwoMore(cfg: Config, start: BlockNumber, acts: seq<Action>, a: Action, b: Action) returns (more: seq<Action>)
    requires Exec(cfg, start, acts).Some? && !a.Host? && !b.Host?
    requires Enabled(cfg, Exec(cfg, start, acts).value, a)
    requires Enabled(cfg, Do(cfg, Exec(cfg, start, acts).value, a), b)
    ensures Exec(cfg, start, more) == Some(Do(cfg, Do(cfg, Exec(cfg, start, acts).value, a), b))
    ensures Hosts(more) == Hosts(acts)
  {
    OneMore(cfg, start, acts, a);
    OneMore(cfg, start, acts + [a], b);
    more := acts + [a] + [b];
  }

  // Within the block that registers the event manager, which is the second; nobody has subscribed.
  ghost predicate JustRegistered(cfg: Config, start: nat, st: State, pub: Addr, mgr: Addr) {
    && st.block.Between? && st.ord == 2 && st.sessions == map[]
    && st.history == Blocks(start, [DeployLog(cfg), RegistrationLog(cfg, pub, mgr)])
    && LastRegistered(cfg, st.history, pub) == mgr
  }

  // The event manager has been registered, and its block goes on.
  lemma RegisteredJustNow(cfg: Config, start: BlockNumber, pub: Addr, mgr: Addr, rest: seq<Log>) returns (st: State)
    requires cfg.Valid() && start + 2 < TWO_TO_THE_64
    ensures Reachable(cfg, st) && st.block == Between(start + 1, rest) && JustRegistered(cfg, start, st, pub, mgr)
    ensures st.push.start == start
  {
    var d, r := DeployLog(cfg), RegistrationLog(cfg, pub, mgr);
    RegistrationParses(cfg, pub, mgr);
    OneRegistration(cfg, start, pub, mgr, 2);
    var a := Deployed(cfg, start);
    var b := EnterBlock(cfg, a, start + 1, [r] + rest);
    st := FinishNext(cfg, b);
    BlocksPush(start, [d], r);
    assert [d] + [r] == [d, r];
  }

  lemma HeardByOne(cfg: Config, st: State, log: Log)
    requires cfg.Valid() && Reachable(cfg, st) && st.block.Between? && st.block.rest != [] && st.block.rest[0] == log
    requires Due(st.svc.listeners, log, st.ord) == {} && cfg.decodeMsg(log.data).None? && st.sessions.Keys == {0}
    requires st.sessions[0].phase == Responding(None, None) && st.sessions[0].filter.want.Pubsub?
    requires Matches(st.sessions[0].filter.addr, st.sessions[0].filter.topics, log)
    ensures DispatchEnabled(cfg, StartLog(st), ThrowSession(0)) && !OthersHear(cfg, StartLog(st), 0)
  {
    ReachableService(cfg, st);
    assert StartLog(st).history[..|st.history|] == st.history;
  }

  // The past listener that the registration installed waits for the next block.
  lemma NobodyElse(cfg: Config, st: State, start: nat, pub: Addr, mgr: Addr, log: Log)
    requires cfg.Valid() && !cfg.seesRest && Reachable(cfg, st) && st.block.Between? && st.ord == 2
    requires st.history == Blocks(start, [DeployLog(cfg), RegistrationLog(cfg, pub, mgr)])
    requires log.addr == mgr && IsNotify(cfg, log)
    ensures Due(st.svc.listeners, log, 2) == {}
  {
    ServiceRefinesFold(cfg, st);
    OneRegistration(cfg, start, pub, mgr, 2);
    DueByKind(cfg, st.svc, log, 2);
    assert |PastDue(st.svc.listeners, mgr, 2)| == 0;
  }
}

/** The blockchain manager, which a header enters and whose event dispatch drives the service: run one
    block after the other it keeps the service equal to the fold of everything dispatched so far. */
module BlockchainManager {
  import opened Eth
  import opened Service
  import opened ServiceSafety
  import opened Abi
  import opened PubsubService

  class BlockchainMgr {
    const subSvc: PubsubServiceStore
    const eventMgr: EventManager
    var lastValidatedBlkNum: BlkNum
    var ord: nat
    ghost var history: seq<Entry>

    ghost predicate Valid()
      reads this, subSvc, eventMgr, subSvc.Queues()
    {
      && subSvc.cfg.Valid() && subSvc.Valid()
      && subSvc.View(eventMgr) == Fold(subSvc.cfg, history)
    }

    // Starts the service on an event manager that nothing listens to yet.
    constructor (svc: PubsubServiceStore, em: EventManager)
      requires svc.cfg.Valid() && svc.Valid() && em.service == []
      requires !svc.isDeployed && svc.evMgrAddrMap == map[] && svc.pastEventStore == map[]
      modifies em`service
      ensures Valid() && subSvc == svc && eventMgr == em && history == [] && lastValidatedBlkNum == NoBlk
    {
      subSvc, eventMgr, lastValidatedBlkNum, ord := svc, em, NoBlk, 0;
      history := [];
      new;
      svc.Start(em);
    }

    // The k-th service listener's callback; ok is false where it throws.
    method Callback(k: nat, e: Entry) returns (ok: bool)
      requires subSvc.Valid() && k < |eventMgr.service|
      modifies subSvc, eventMgr`service, subSvc.Queues()
      ensures subSvc.Valid() && fresh(subSvc.Queues() - old(subSvc.Queues()))
      ensures ok <==> !ServiceThrows(subSvc.cfg, old(eventMgr.service)[k].kind, e.log)
      ensures subSvc.View(eventMgr) ==
              if ok then Effect(subSvc.cfg, old(subSvc.View(eventMgr)), k, e) else old(subSvc.View(eventMgr))
    {
      match eventMgr.service[k].kind {
        case Deploy =>
          subSvc.DeployEventHandler(eventMgr, eventMgr, e.ord, k);
          ok := true;
        case Registration =>
          ok := subSvc.RegEventHandler(eventMgr, eventMgr, e.ord, e.log);
        case Past =>
          ok := subSvc.NotifyPastEventHandler(eventMgr, e.blk, e.log);
      }
    }

    // Position k's turn in the dispatch of log e, base being the fold of the logs h before it.
    method Turn(k: nat, l: Listener, e: Entry, ghost base: ServiceState, ghost rungs: seq<ServiceState>,
                ghost h: seq<Entry>) returns (ok: bool)
      requires subSvc.cfg.Valid() && base == Fold(subSvc.cfg, h) && Rungs(subSvc.cfg, base, e, rungs)
      requires k < |base.listeners| && l == base.listeners[k]
      requires subSvc.Valid() && subSvc.View(eventMgr) == rungs[k]
      modifies subSvc, eventMgr`service, subSvc.Queues()
      ensures subSvc.Valid() && fresh(subSvc.Queues() - old(subSvc.Queues()))
      ensures ok <==> !(Malformed(subSvc.cfg, e.log) && k in Due(base.listeners, e.log, e.ord))
      ensures subSvc.View(eventMgr) == if ok then rungs[k + 1] else rungs[|base.listeners|]
    {
      ghost var due := Due(base.listeners, e.log, e.ord);
      FoldShape(subSvc.cfg, h);
      assert From(due, k + 1) == From(due, k) - {k};
      ok := true;
      if Active(l, e.ord) && Matches(l.addr, l.topics, e.log) {
        ok := DueTurn(k, e, base, From(due, k));
        NoTurnLeft(subSvc.cfg, base, e);
      } else {
        assert From(due, k) == From(due, k + 1);
      }
    }

    // The callback at position k, which is due, with those in todo left.
    method DueTurn(k: nat, e: Entry, ghost base: ServiceState, ghost todo: set<nat>) returns (ok: bool)
      requires subSvc.cfg.Valid() && |base.listeners| > 0 && Shape(subSvc.cfg, base) && subSvc.Valid()
      requires k in todo && todo <= Due(base.listeners, e.log, e.ord)
      requires subSvc.View(eventMgr) == Partial(subSvc.cfg, base, e, todo, None)
      modifies subSvc, eventMgr`service, subSvc.Queues()
      ensures subSvc.Valid() && fresh(subSvc.Queues() - old(subSvc.Queues()))
      ensures ok <==> !Malformed(subSvc.cfg, e.log)
      ensures ok ==> subSvc.View(eventMgr) == Partial(subSvc.cfg, base, e, todo - {k}, None)
      ensures !ok ==> subSvc.View(eventMgr) == Next(subSvc.cfg, base, e)
    {
      CallbackEffect(subSvc.cfg, base, e, todo, k);
      ok := Callback(k, e);
      if !ok {
        PartialMalformed(subSvc.cfg, base, e, todo);
      }
    }

    // Every position's turn, up to one that throws.
    method Turns(listeners: seq<Listener>, e: Entry, ghost base: ServiceState, ghost rungs: seq<ServiceState>,
                 ghost h: seq<Entry>) returns (ok: bool)
      requires subSvc.cfg.Valid() && base == Fold(subSvc.cfg, h) && Rungs(subSvc.cfg, base, e, rungs)
      requires listeners == base.listeners && subSvc.Valid() && subSvc.View(eventMgr) == rungs[0]
      modifies subSvc, eventMgr`service, subSvc.Queues()
      ensures subSvc.Valid() && fresh(subSvc.Queues() - old(subSvc.Queues()))
      ensures ok <==> !(Malformed(subSvc.cfg, e.log) && Due(base.listeners, e.log, e.ord) != {})
      ensures subSvc.View(eventMgr) == rungs[|base.listeners|]
    {
      var k := 0;
      ok := true;
      while k < |listeners|
        invariant k <= |listeners| && ok && subSvc.Valid() && subSvc.View(eventMgr) == rungs[k]
        invariant fresh(subSvc.Queues() - old(subSvc.Queues()))
        invariant Malformed(subSvc.cfg, e.log) ==> forall i | i in Due(base.listeners, e.log, e.ord) :: k <= i
      {
        ok := Turn(k, listeners[k], e, base, rungs, h);
        if !ok {
          return;
        }
        k := k + 1;
      }
    }

    // One log to every service listener that was live when its dispatch began; stops where one throws.
    method DispatchLog(e: Entry) returns (ok: bool)
      requires Valid()
      modifies this`history, subSvc, eventMgr`service, subSvc.Queues()
      ensures Valid() && fresh(subSvc.Queues() - old(subSvc.Queues()))
      ensures history == old(history) + [e]
      ensures ok <==>
              !(Malformed(subSvc.cfg, e.log) && Due(Fold(subSvc.cfg, old(history)).listeners, e.log, e.ord) != {})
    {
      ghost var base := subSvc.View(eventMgr);
      FoldShape(subSvc.cfg, history);
      ghost var rungs := MakeRungs(subSvc.cfg, base, e);
      ok := Turns(eventMgr.service, e, base, rungs, history);
      history := history + [e];
      assert history[..|history| - 1] == old(history);
    }

    // The logs of a block in order, up to the first that throws; n is how many were dispatched.
    method CheckEvents(num: nat, logs: seq<Log>) returns (ok: bool, n: nat)
      requires Valid()
      modifies this`history, subSvc, eventMgr`service, subSvc.Queues()
      ensures Valid() && fresh(subSvc.Queues() - old(subSvc.Queues()))
      ensures n <= |logs| && history == old(history) + Entries(num, ord, logs[..n])
      ensures ok <==> forall i | 0 <= i < |logs| :: !ThrowsAt(subSvc.cfg, old(history), num, ord, logs, i)
      ensures StopsAt(subSvc.cfg, old(history), num, ord, logs, n)
    {
      n := 0;
      while n < |logs|
        invariant n <= |logs| && Valid()
        invariant fresh(subSvc.Queues() - old(subSvc.Queues()))
        invariant history == old(history) + Entries(num, ord, logs[..n])
        invariant forall i | 0 <= i < n :: !ThrowsAt(subSvc.cfg, old(history), num, ord, logs, i)
      {
        EntriesNext(num, ord, logs, n);
        ok := DispatchLog(Entry(num, ord, logs[n]));
        assert ok <==> !ThrowsAt(subSvc.cfg, old(history), num, ord, logs, n);
        n := n + 1;
        if !ok {
          return;
        }
      }
      ok := true;
    }

    // Runs when a header has been validated: the number is set before anything is dispatched. receipts
    // is None where fetching them throws; refreshed is false where the bootstrap refresh throws.
    method OnHeaderValidated(num: nat, receipts: Option<seq<Log>>, refreshed: bool) returns (ok: bool, n: nat)
      requires Valid()
      modifies this, subSvc, eventMgr`service, subSvc.Queues()
      ensures Valid() && fresh(subSvc.Queues() - old(subSvc.Queues()))
      ensures lastValidatedBlkNum == Blk(num) && ord == old(ord) + 1
      ensures receipts.None? ==> !ok && n == 0 && history == old(history)
      ensures receipts.Some? ==>
                && n <= |receipts.value|
                && history == old(history) + Entries(num, ord, receipts.value[..n])
                && StopsAt(subSvc.cfg, old(history), num, ord, receipts.value, n)
      ensures ok <==>
              && receipts.Some? && refreshed
              && (forall i | 0 <= i < |receipts.value| ::
                    !ThrowsAt(subSvc.cfg, old(history), num, ord, receipts.value, i))
    {
      lastValidatedBlkNum, ord, n := Blk(num), ord + 1, 0;
      if receipts.None? {
        return false, 0;
      }
      ok, n := CheckEvents(num, receipts.value);
      ok := ok && refreshed;
    }

    // accepted is false where the monitor rejects the header; that throws and changes nothing. n is how
    // many logs were dispatched.
    method AppendBlock(num: nat, accepted: bool, receipts: Option<seq<Log>>, refreshed: bool)
      returns (ok: bool, n: nat)
      requires Valid()
      modifies this, subSvc, eventMgr`service, subSvc.Queues()
      ensures Valid() && fresh(subSvc.Queues() - old(subSvc.Queues()))
      ensures lastValidatedBlkNum == if accepted then Blk(num) else old(lastValidatedBlkNum)
      ensures ord == old(ord) + if accepted then 1 else 0
      ensures !accepted || receipts.None? ==> !ok && n == 0 && history == old(history)
      ensures accepted && receipts.Some? ==>
                && n <= |receipts.value|
                && history == old(history) + Entries(num, ord, receipts.value[..n])
                && StopsAt(subSvc.cfg, old(history), num, ord, receipts.value, n)
      ensures ok <==>
              && accepted && receipts.Some? && refreshed
              && (forall i | 0 <= i < |receipts.value| ::
                    !ThrowsAt(subSvc.cfg, old(history), num, ord, receipts.value, i))
    {
      if !accepted {
        return false, 0;
      }
      ok, n := OnHeaderValidated(num, receipts, refreshed);
    }

    method GetLastValidatedBlkNum() returns (r: BlkNum)
      ensures r == lastValidatedBlkNum
    {
      r := lastValidatedBlkNum;
    }
  }

  // Log i of a block that follows history h throws: it is malformed, and a listener that the service has by
  // then is due for it.
  ghost predicate ThrowsAt(cfg: Config, h: seq<Entry>, num: nat, ord: nat, logs: seq<Log>, i: nat)
    requires i < |logs|
  {
    && Malformed(cfg, logs[i])
    && Due(Fold(cfg, h + Entries(num, ord, logs[..i])).listeners, logs[i], ord) != {}
  }

  // n logs of the block are dispatched: none before the last of them throws, and if not all are, the last
  // one throws.
  ghost predicate StopsAt(cfg: Config, h: seq<Entry>, num: nat, ord: nat, logs: seq<Log>, n: nat)
    requires n <= |logs|
  {
    && (forall i | 0 <= i < n - 1 :: !ThrowsAt(cfg, h, num, ord, logs, i))
    && (n < |logs| ==> 0 < n && ThrowsAt(cfg, h, num, ord, logs, n - 1))
  }

  // The callbacks in due from position k on.
  ghost function From(due: set<nat>, k: nat): set<nat> {
    set i | i in due && k <= i
  }

  // rungs[k] is the service's state when the callbacks from position k on are left of log e, dispatched on
  // top of base.
  ghost predicate Rungs(cfg: Config, base: ServiceState, e: Entry, rungs: seq<ServiceState>) {
    && |base.listeners| > 0 && |rungs| == |base.listeners| + 1
    && forall k {:trigger From(Due(base.listeners, e.log, e.ord), k)} | 0 <= k < |rungs| ::
         rungs[k] == Partial(cfg, base, e, From(Due(base.listeners, e.log, e.ord), k), None)
  }

  // They lead from the state before the log to the state after it.
  lemma MakeRungs(cfg: Config, base: ServiceState, e: Entry) returns (rungs: seq<ServiceState>)
    requires cfg.Valid() && |base.listeners| > 0 && Shape(cfg, base)
    ensures Rungs(cfg, base, e, rungs) && rungs[0] == base && rungs[|base.listeners|] == Next(cfg, base, e)
  {
    var due := Due(base.listeners, e.log, e.ord);
    rungs := seq(|base.listeners| + 1, k requires 0 <= k => Partial(cfg, base, e, From(due, k), None));
    PartialStart(cfg, base, e);
    assert From(due, 0) == due;
    NoTurnLeft(cfg, base, e);
  }

  lemma NoTurnLeft(cfg: Config, base: ServiceState, e: Entry)
    requires |base.listeners| > 0
    ensures From(Due(base.listeners, e.log, e.ord), |base.listeners|) == {}
    ensures Partial(cfg, base, e, From(Due(base.listeners, e.log, e.ord), |base.listeners|), None) == Next(cfg, base, e)
  {}

  // What the callback at position k does.
  function Effect(cfg: Config, s: ServiceState, k: nat, e: Entry): ServiceState
    requires k < |s.listeners| && !ServiceThrows(cfg, s.listeners[k].kind, e.log)
  {
    match s.listeners[k].kind
    case Deploy => OnDeploy(cfg, s, k, e.ord)
    case Registration =>
      var r := DecodeRegistration(e.log.data).value;
      OnRegistration(cfg, s, r.pub, r.mgr, e.ord)
    case Past => AppendPast(s, e.log.addr, Ev(e.blk, cfg.decodeMsg(e.log.data).value))
  }

  // An owed callback takes the partial state one callback further, or throws on a malformed log.
  lemma CallbackEffect(cfg: Config, base: ServiceState, e: Entry, todo: set<nat>, k: nat)
    requires cfg.Valid() && |base.listeners| > 0 && Shape(cfg, base)
    requires k in todo && todo <= Due(base.listeners, e.log, e.ord)
    ensures var s := Partial(cfg, base, e, todo, None);
            && k < |s.listeners|
            && (ServiceThrows(cfg, s.listeners[k].kind, e.log) <==> Malformed(cfg, e.log))
            && (!ServiceThrows(cfg, s.listeners[k].kind, e.log) ==>
                  Partial(cfg, base, e, todo - {k}, None) == Effect(cfg, s, k, e))
  {
    CallbackKind(cfg, base, e, k);
    DueByKind(cfg, base, e.log, e.ord);
    if IsDeploy(cfg, e.log) {
      PartialDeploy(cfg, base, e, todo, k);
    } else if IsRegistration(cfg, e.log) {
      PartialRegistration(cfg, base, e, todo, k);
    } else {
      PastHasQueue(cfg, base, e, k);
      if cfg.decodeMsg(e.log.data).Some? {
        PartialPast(cfg, base, e, todo, k);
      }
    }
  }
}

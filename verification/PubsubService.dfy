/** The subscriber service as it runs: a store that its event handlers update in place, and the event
    manager's table that they extend. Each handler is tied to the function of module Service that says
    what it does. */
module PubsubService {
  import opened Eth
  import opened Abi
  import opened Service
  import opened Sessions

  class ThreadedEventQueue {
    var eventQueue: seq<Item>

    constructor ()
      ensures eventQueue == []
    {
      eventQueue := [];
    }
  }

  // A subscription's entry: its filter and the private queue its callback captures.
  datatype Subscription = Subscription(want: Want, addr: Addr, topics: seq<Topic>, queue: ThreadedEventQueue)

  // The library's listener table, kept in two parts: what the service installed, whose callback ids
  // are positions, and the subscriptions under fresh ids.
  class EventManager {
    var service: seq<Listener>
    var subscriptions: map<nat, Subscription>
    var nextId: nat

    ghost predicate Valid()
      reads this
    {
      forall id | id in subscriptions :: id < nextId
    }

    constructor ()
      ensures Valid() && service == [] && subscriptions == map[]
    {
      service, subscriptions, nextId := [], map[], 0;
    }

    method ListenService(l: Listener)
      modifies this`service
      ensures service == old(service) + [l]
    {
      service := service + [l];
    }

    method CancelService(cbID: nat)
      requires cbID < |service|
      modifies this`service
      ensures service == old(service)[cbID := old(service)[cbID].(cancelled := true)]
    {
      service := service[cbID := service[cbID].(cancelled := true)];
    }

    method Listen(sub: Subscription) returns (id: nat)
      requires Valid()
      modifies this`subscriptions, this`nextId
      ensures Valid() && id !in old(subscriptions) && subscriptions == old(subscriptions)[id := sub]
    {
      id := nextId;
      subscriptions := subscriptions[id := sub];
      nextId := nextId + 1;
    }

    method Cancel(id: nat)
      requires Valid()
      modifies this`subscriptions
      ensures Valid() && subscriptions == old(subscriptions) - {id}
    {
      subscriptions := subscriptions - {id};
    }
  }

  class PubsubServiceStore {
    const cfg: Config
    var isDeployed: bool
    var evMgrAddrMap: map<Bytes, Addr>
    var pastEventStore: map<Addr, ThreadedEventQueue>

    // No two event managers share a queue.
    ghost predicate Valid()
      reads this
    {
      forall a, b | a in pastEventStore && b in pastEventStore && a != b :: pastEventStore[a] != pastEventStore[b]
    }

    ghost function Queues(): set<ThreadedEventQueue>
      reads this
    {
      set a | a in pastEventStore :: pastEventStore[a]
    }

    // The service's state, with the queues' contents in place of the queues.
    ghost function View(em: EventManager): ServiceState
      reads this, em, Queues()
    {
      ServiceState(isDeployed, evMgrAddrMap, map a | a in pastEventStore :: pastEventStore[a].eventQueue, em.service)
    }

    constructor (cfg: Config)
      ensures this.cfg == cfg && Valid() && Queues() == {}
      ensures !isDeployed && evMgrAddrMap == map[] && pastEventStore == map[]
    {
      this.cfg := cfg;
      isDeployed, evMgrAddrMap, pastEventStore := false, map[], map[];
    }

    method Start(em: EventManager)
      requires Valid() && !isDeployed && evMgrAddrMap == map[] && pastEventStore == map[] && em.service == []
      modifies em`service
      ensures View(em) == Started(cfg)
    {
      var padded := AddressToAbiAddress(cfg.pubsub);
      em.ListenService(Listener(Deploy, cfg.pubsub, [cfg.deployTopic, padded[..]], 0, false));
    }

    method GetEventMgrAddr(em: EventManager, publisherAddr: Bytes) returns (r: Addr)
      ensures r == EventMgrOf(View(em), publisherAddr)
    {
      if publisherAddr !in evMgrAddrMap {
        return ZERO_ADDR;
      }
      return evMgrAddrMap[publisherAddr];
    }

    // A copy: later notifications do not reach it.
    method GetPastEvents(em: EventManager, evMgrAddr: Addr) returns (pastEvents: seq<Item>)
      ensures pastEvents == PastOf(View(em), evMgrAddr)
    {
      pastEvents := [];
      if evMgrAddr in pastEventStore {
        pastEvents := pastEventStore[evMgrAddr].eventQueue;
      }
    }

    // ok is false where the parser throws; nothing has changed then.
    method NotifyPastEventHandler(em: EventManager, blk: nat, log: Log) returns (ok: bool)
      requires Valid()
      modifies Queues()
      ensures Valid() && Queues() == old(Queues())
      ensures ok <==> cfg.decodeMsg(log.data).Some?
      ensures View(em) == if ok then AppendPast(old(View(em)), log.addr, Ev(blk, cfg.decodeMsg(log.data).value))
                          else old(View(em))
    {
      var evMsg := cfg.decodeMsg(log.data);
      if evMsg.None? {
        return false;
      }
      if log.addr !in pastEventStore {
        return true;
      }
      var evQueue := pastEventStore[log.addr];
      evQueue.eventQueue := evQueue.eventQueue + [Ev(blk, evMsg.value)];
      assert View(em).backlog ==
             old(View(em)).backlog[log.addr := old(View(em)).backlog[log.addr] + [Ev(blk, evMsg.value)]];
      return true;
    }

    // Keeps the queue of an event manager that already has one.
    method EmplaceQueue(em: EventManager, evMgrAddr: Addr)
      requires Valid()
      modifies this`pastEventStore
      ensures Valid() && fresh(Queues() - old(Queues()))
      ensures View(em) == Emplace(old(View(em)), evMgrAddr)
    {
      if evMgrAddr !in pastEventStore {
        var queue := new ThreadedEventQueue();
        pastEventStore := pastEventStore[evMgrAddr := queue];
        assert View(em).backlog == old(View(em)).backlog[evMgrAddr := []];
      }
    }

    // An event manager that has gone (the weak pointer is null) is not listened to.
    method RegEventHandler(weakEventMgr: EventManager?, em: EventManager, ord: nat, log: Log) returns (ok: bool)
      requires Valid() && (weakEventMgr == null || weakEventMgr == em)
      modifies this, em`service
      ensures Valid() && fresh(Queues() - old(Queues()))
      ensures ok <==> DecodeRegistration(log.data).Some?
      ensures !ok ==> View(em) == old(View(em))
      ensures ok ==> var r := DecodeRegistration(log.data).value;
                     View(em) == if weakEventMgr != null then OnRegistration(cfg, old(View(em)), r.pub, r.mgr, ord)
                                 else Emplace(WriteMap(old(View(em)), r.pub, r.mgr), r.mgr)
    {
      if |log.data| < 64 {
        return false;
      }
      var pubAddr, evMgrAddr: Addr := log.data[12..32], log.data[44..64];
      evMgrAddrMap := evMgrAddrMap[pubAddr := evMgrAddr];
      assert View(em) == WriteMap(old(View(em)), pubAddr, evMgrAddr);
      EmplaceQueue(em, evMgrAddr);
      if weakEventMgr != null {
        weakEventMgr.ListenService(PastListener(cfg, evMgrAddr, CallbackSince(cfg, ord)));
      }
      return true;
    }

    method DeployEventHandler(weakEventMgr: EventManager?, em: EventManager, ord: nat, cbID: nat)
      requires Valid() && (weakEventMgr == null || weakEventMgr == em) && cbID < |em.service|
      modifies this`isDeployed, em`service
      ensures Valid() && Queues() == old(Queues())
      ensures View(em) == if weakEventMgr != null then OnDeploy(cfg, old(View(em)), cbID, ord)
                          else old(View(em)).(deployed := true)
    {
      isDeployed := true;
      if weakEventMgr != null {
        weakEventMgr.CancelService(cbID);
        weakEventMgr.ListenService(RegListener(cfg, CallbackSince(cfg, ord)));
      }
    }
  }
}

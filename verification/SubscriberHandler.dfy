/** The subscription request and the heartbeat of a pub/sub subscriber, as they run without
    interference; the session they work on is a value of module Sessions. */
module SubscriberHandler {
  import opened Eth
  import opened Service
  import opened Sessions
  import opened PubsubService
  import opened BlockchainManager

  // A message as the subscriber gets it.
  datatype Packet = Packet(num: BlkNum, items: seq<Item>)

  class LambdaMsgSocket {
    var sent: seq<Packet>

    constructor ()
      ensures sent == []
    {
      sent := [];
    }

    // Either the whole message goes out, or the send throws.
    method SizedSendBytes(p: Packet, works: bool) returns (ok: bool)
      modifies this
      ensures ok == works && sent == if ok then old(sent) + [p] else old(sent)
    {
      ok := works;
      if ok {
        sent := sent + [p];
      }
    }
  }

  // What the heartbeat thread runs for a subscriber.
  datatype Emitter = Emitter(socket: LambdaMsgSocket, queue: ThreadedEventQueue, listenId: nat)

  class HeartbeatEmitterMgr {
    var emitters: seq<Emitter>

    method AddEmitter(e: Emitter)
      modifies this
      ensures emitters == old(emitters) + [e]
    {
      emitters := emitters + [e];
    }
  }

  function Packets(ms: seq<Msg>): seq<Packet> {
    if ms == [] then [] else Packets(ms[..|ms| - 1]) + [Packet(ms[|ms| - 1].num, ms[|ms| - 1].items)]
  }

  // The socket and the queue are those of the session.
  ghost predicate Shows(sess: Session, socket: LambdaMsgSocket, queue: ThreadedEventQueue)
    reads socket, queue
  {
    && queue.eventQueue == sess.pending
    && socket.sent == (if sess.hello.Some? then [Packet(sess.hello.value.num, sess.hello.value.items)] else [])
                      + Packets(sess.sent)
  }

  // The event manager has a listener of the session, into its queue, exactly while the session listens.
  ghost predicate Listed(sess: Session, em: EventManager, id: nat, queue: ThreadedEventQueue)
    reads em
  {
    && (id in em.subscriptions <==> Listening(sess))
    && (id in em.subscriptions ==>
          em.subscriptions[id] == Subscription(sess.filter.want, sess.filter.addr, sess.filter.topics, queue))
  }

  lemma PacketsPush(ms: seq<Msg>, m: Msg)
    ensures Packets(ms + [m]) == Packets(ms) + [Packet(m.num, m.items)]
  {
    assert (ms + [m])[..|ms|] == ms;
  }

  // What a heartbeat adds to what the subscriber has been sent.
  lemma BeatPackets(sess: Session, num: BlkNum)
    ensures var next := Sent(Number(Drain(sess), num));
            next.pending == [] && next.hello == sess.hello
            && Packets(next.sent) == Packets(sess.sent) + [Packet(num, sess.pending)]
  {
    PacketsPush(sess.sent, Msg(num, sess.pending, |Received(Drain(sess))|));
  }

  // The session after a heartbeat that runs without interference.
  function AfterBeat(sess: Session, last: BlkNum, now: nat, ok: bool): Session {
    if ok then Sent(Number(Drain(sess), last)) else Cancel(Failed(Drain(sess)), now)
  }

  // The subscriber's callback; ok is false where the parser throws.
  method NotifyEventHandler(cfg: Config, evQueue: ThreadedEventQueue, e: Entry) returns (ok: bool)
    modifies evQueue
    ensures ok <==> cfg.decodeMsg(e.log.data).Some?
    ensures evQueue.eventQueue ==
            old(evQueue.eventQueue) + if ok then [Ev(e.blk, cfg.decodeMsg(e.log.data).value)] else []
    ensures evQueue.eventQueue == old(evQueue.eventQueue) + Items(cfg, Pubsub, e)
  {
    var evMsg := cfg.decodeMsg(e.log.data);
    if evMsg.None? {
      return false;
    }
    evQueue.eventQueue := evQueue.eventQueue + [Ev(e.blk, evMsg.value)];
    return true;
  }

  // One heartbeat. A failed send throws, after the listener has been cancelled; the drained batch is
  // not put back.
  method EmitterHandler(socket: LambdaMsgSocket, evQueue: ThreadedEventQueue, bcMgr: BlockchainMgr, listenId: nat,
                        works: bool, ghost sess: Session, ghost now: nat)
      returns (ok: bool)
    requires bcMgr.eventMgr.Valid() && sess.phase.Waiting? && Shows(sess, socket, evQueue)
    requires Listed(sess, bcMgr.eventMgr, listenId, evQueue)
    modifies socket, evQueue, bcMgr.eventMgr`subscriptions
    ensures ok == works && bcMgr.eventMgr.Valid() && evQueue.eventQueue == []
    ensures socket.sent == old(socket.sent) +
            if ok then [Packet(bcMgr.lastValidatedBlkNum, old(evQueue.eventQueue))] else []
    ensures bcMgr.eventMgr.subscriptions == old(bcMgr.eventMgr.subscriptions) - if ok then {} else {listenId}
    ensures var after := AfterBeat(sess, bcMgr.lastValidatedBlkNum, now, ok);
            Shows(after, socket, evQueue) && Listed(after, bcMgr.eventMgr, listenId, evQueue)
  {
    var outEvQueue := evQueue.eventQueue;
    evQueue.eventQueue := [];
    var num := bcMgr.GetLastValidatedBlkNum();
    ok := socket.SizedSendBytes(Packet(num, outEvQueue), works);
    if ok {
      BeatPackets(sess, num);
    } else {
      bcMgr.eventMgr.Cancel(listenId);
    }
  }

  datatype SubOutcome = NoManager | NotSent(id: nat) | Subscribed(id: nat)

  // The session of a request that found event manager mgr, after its response.
  function Opened(pub: Bytes, mgr: Addr, cfg: Config, now: nat, past: seq<Item>, last: BlkNum, ok: bool): Session {
    var listening := Listened(Looked(pub, mgr, cfg.notifyTopic, now, false), now, |past|);
    Greeted(HelloPast(HelloNumber(listening, last, |past|), past), ok)
  }

  // The current state as the response; its arguments are evaluated in either order.
  method RespondState(bcMgr: BlockchainMgr, socket: LambdaMsgSocket, mgr: Addr, numberFirst: bool, works: bool)
      returns (ok: bool)
    modifies socket
    ensures ok == works
    ensures socket.sent == old(socket.sent) +
            if works then [Packet(bcMgr.lastValidatedBlkNum, PastOf(bcMgr.subSvc.View(bcMgr.eventMgr), mgr))] else []
  {
    var num, past;
    if numberFirst {
      num := bcMgr.GetLastValidatedBlkNum();
      past := bcMgr.subSvc.GetPastEvents(bcMgr.eventMgr, mgr);
    } else {
      past := bcMgr.subSvc.GetPastEvents(bcMgr.eventMgr, mgr);
      num := bcMgr.GetLastValidatedBlkNum();
    }
    ok := socket.SizedSendBytes(Packet(num, past), works);
  }

  // A subscription request: look the event manager up, listen, respond, register the emitter. When the
  // response is not sent the listener stays and no emitter is registered.
  method SubReq(bcMgr: BlockchainMgr, emitterMgr: HeartbeatEmitterMgr, socket: LambdaMsgSocket, pubAddr: Bytes,
                numberFirst: bool, works: bool)
      returns (r: SubOutcome)
    requires bcMgr.eventMgr.Valid() && socket.sent == []
    modifies bcMgr.eventMgr`subscriptions, bcMgr.eventMgr`nextId, emitterMgr, socket
    ensures bcMgr.eventMgr.Valid()
    ensures r.NoManager? <==> EventMgrOf(old(bcMgr.subSvc.View(bcMgr.eventMgr)), pubAddr) == ZERO_ADDR
    ensures r.NoManager? ==> unchanged(bcMgr.eventMgr) && unchanged(emitterMgr) && unchanged(socket)
    ensures !r.NoManager? ==>
              var svc := old(bcMgr.subSvc.View(bcMgr.eventMgr));
              var mgr := EventMgrOf(svc, pubAddr);
              && r.id !in old(bcMgr.eventMgr.subscriptions)
              && r.id in bcMgr.eventMgr.subscriptions
              && var sub := bcMgr.eventMgr.subscriptions[r.id];
              && bcMgr.eventMgr.subscriptions == old(bcMgr.eventMgr.subscriptions)[r.id := sub]
              && sub == Subscription(Pubsub, mgr, [bcMgr.subSvc.cfg.notifyTopic], sub.queue) && fresh(sub.queue)
              && sub.queue.eventQueue == []
              && socket.sent == (if works then [Packet(bcMgr.lastValidatedBlkNum, PastOf(svc, mgr))] else [])
              && var sess := Opened(pubAddr, mgr, bcMgr.subSvc.cfg, |bcMgr.history|, PastOf(svc, mgr),
                                    bcMgr.lastValidatedBlkNum, works);
              && Shows(sess, socket, sub.queue) && Listed(sess, bcMgr.eventMgr, r.id, sub.queue)
              && (sess.phase.Waiting? <==> works)
              && emitterMgr.emitters ==
                 old(emitterMgr.emitters) + if works then [Emitter(socket, sub.queue, r.id)] else []
    ensures r.Subscribed? ==> works
    ensures r.NotSent? ==> !works
  {
    var eventMgrAddr := bcMgr.subSvc.GetEventMgrAddr(bcMgr.eventMgr, pubAddr);
    if eventMgrAddr == ZERO_ADDR {
      return NoManager;
    }
    var eventQueue := new ThreadedEventQueue();
    var sub := Subscription(Pubsub, eventMgrAddr, [bcMgr.subSvc.cfg.notifyTopic], eventQueue);
    var listenId := bcMgr.eventMgr.Listen(sub);
    var ok := RespondState(bcMgr, socket, eventMgrAddr, numberFirst, works);
    if !ok {
      return NotSent(listenId);
    }
    emitterMgr.AddEmitter(Emitter(socket, eventQueue, listenId));
    return Subscribed(listenId);
  }
}

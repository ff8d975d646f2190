/** The receipt subscription: request validation, the callback, and the heartbeat. */
module ReceiptSubscriber {
  import opened Eth
  import opened Sessions
  import opened PubsubService
  import opened BlockchainManager
  import opened SubscriberHandler
  import opened Service

  // The callback copies the log's topics one by one.
  method SubscribedReceiptHandler(cfg: Config, recQueue: ThreadedEventQueue, e: Entry)
    modifies recQueue
    ensures recQueue.eventQueue == old(recQueue.eventQueue) + [Rc(e.blk, e.log.topics, e.log.data)]
    ensures recQueue.eventQueue == old(recQueue.eventQueue) + Items(cfg, Receipts, e)
  {
    var topics: seq<Topic> := [];
    for i := 0 to |e.log.topics|
      invariant topics == e.log.topics[..i]
    {
      topics := topics + [e.log.topics[i]];
    }
    assert topics == e.log.topics;
    recQueue.eventQueue := recQueue.eventQueue + [Rc(e.blk, topics, e.log.data)];
  }

  // The topics of a request, if each has the length of a topic; stops at the first that has not.
  method ParseTopics(fields: seq<Bytes>) returns (r: Option<seq<Topic>>)
    ensures r.Some? <==> forall i | 0 <= i < |fields| :: |fields[i]| == 32
    ensures r.Some? ==> |r.value| == |fields| && forall i | 0 <= i < |fields| :: r.value[i] == fields[i]
  {
    var topics: seq<Topic> := [];
    for i := 0 to |fields|
      invariant |topics| == i
      invariant forall j | 0 <= j < i :: topics[j] == fields[j]
    {
      if |fields[i]| != 32 {
        return None;
      }
      topics := topics + [fields[i]];
    }
    return Some(topics);
  }

  predicate WellFormedRequest(contract: Bytes, fields: seq<Bytes>) {
    |contract| == 20 && forall i | 0 <= i < |fields| :: |fields[i]| == 32
  }

  // All or nothing: a listener with exactly the requested filter and its emitter, or no change at all.
  method ReceiptSubReq(bcMgr: BlockchainMgr, emitterMgr: HeartbeatEmitterMgr, socket: LambdaMsgSocket,
                       contract: Bytes, fields: seq<Bytes>)
      returns (id: Option<nat>)
    requires bcMgr.eventMgr.Valid() && socket.sent == []
    modifies bcMgr.eventMgr`subscriptions, bcMgr.eventMgr`nextId, emitterMgr
    ensures bcMgr.eventMgr.Valid()
    ensures id.Some? <==> WellFormedRequest(contract, fields)
    ensures id.None? ==> unchanged(bcMgr.eventMgr) && unchanged(emitterMgr)
    ensures id.Some? ==>
              && id.value !in old(bcMgr.eventMgr.subscriptions) && id.value in bcMgr.eventMgr.subscriptions
              && var sub := bcMgr.eventMgr.subscriptions[id.value];
              && bcMgr.eventMgr.subscriptions == old(bcMgr.eventMgr.subscriptions)[id.value := sub]
              && sub.want == Receipts && sub.addr == contract && sub.topics == fields && fresh(sub.queue)
              && sub.queue.eventQueue == []
              && Shows(ReceiptSession(sub.addr, sub.topics, |bcMgr.history|), socket, sub.queue)
              && Listed(ReceiptSession(sub.addr, sub.topics, |bcMgr.history|), bcMgr.eventMgr, id.value, sub.queue)
              && emitterMgr.emitters == old(emitterMgr.emitters) + [Emitter(socket, sub.queue, id.value)]
  {
    if |contract| != 20 {
      return None;
    }
    var topics := ParseTopics(fields);
    if topics.None? {
      return None;
    }
    var receiptQueue := new ThreadedEventQueue();
    var listenId := bcMgr.eventMgr.Listen(Subscription(Receipts, contract, topics.value, receiptQueue));
    emitterMgr.AddEmitter(Emitter(socket, receiptQueue, listenId));
    return Some(listenId);
  }

  // The heartbeat differs from the pub/sub one only in the label of its list.
  method SubscribedReceiptEmitter(socket: LambdaMsgSocket, recQueue: ThreadedEventQueue, bcMgr: BlockchainMgr,
                                  listenId: nat, works: bool, ghost sess: Session, ghost now: nat)
      returns (ok: bool)
    requires bcMgr.eventMgr.Valid() && sess.phase.Waiting? && Shows(sess, socket, recQueue)
    requires Listed(sess, bcMgr.eventMgr, listenId, recQueue)
    modifies socket, recQueue, bcMgr.eventMgr`subscriptions
    ensures ok == works && bcMgr.eventMgr.Valid() && recQueue.eventQueue == []
    ensures socket.sent == old(socket.sent) +
            if ok then [Packet(bcMgr.lastValidatedBlkNum, old(recQueue.eventQueue))] else []
    ensures bcMgr.eventMgr.subscriptions == old(bcMgr.eventMgr.subscriptions) - if ok then {} else {listenId}
    ensures var after := AfterBeat(sess, bcMgr.lastValidatedBlkNum, now, ok);
            Shows(after, socket, recQueue) && Listed(after, bcMgr.eventMgr, listenId, recQueue)
  {
    var outQueue := recQueue.eventQueue;
    recQueue.eventQueue := [];
    var latestBlkNum := bcMgr.GetLastValidatedBlkNum();
    ok := socket.SizedSendBytes(Packet(latestBlkNum, outQueue), works);
    if ok {
      BeatPackets(sess, latestBlkNum);
    } else {
      bcMgr.eventMgr.Cancel(listenId);
    }
  }
}

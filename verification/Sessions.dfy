/** A subscriber's session as a value: its listener, its private queue, what it has been sent, and
    what each step of the subscription and of the heartbeat does to it. */
module Sessions {
  import opened Eth
  import opened Service

  datatype Want = Pubsub | Receipts

  // The session's listener: since is the number of logs dispatched before it, until the number
  // dispatched when it was cancelled.
  datatype Filter = Filter(want: Want, addr: Addr, topics: seq<Topic>, since: nat, until: Option<nat>)

  // A message to the subscriber. mark is not sent: it records how much there was to send (for the
  // first response, in the backlog) when the number was read.
  datatype Msg = Msg(num: BlkNum, items: seq<Item>, mark: nat)

  datatype NumRead = NumRead(num: BlkNum, mark: nat)

  datatype Phase =
    | LookedUp                                                     // event manager found, not listening
    | Responding(num: Option<NumRead>, past: Option<seq<Item>>)    // listening, building the response
    | Stuck                                                        // the response was not sent: no emitter
    | Waiting                                                      // emitter registered
    | Drained(batch: seq<Item>)                                    // heartbeat: queue swapped out
    | Numbered(batch: seq<Item>, read: NumRead)                    // heartbeat: number read
    | Failing(batch: seq<Item>)                                    // heartbeat: exception caught
    | Cancelled(batch: seq<Item>)                                  // listener cancelled, emitter gone

  // looked: the number of logs dispatched at the lookup; within: the last of them was still being
  // dispatched; baseLen: the backlog's length at the Listen; numberLast: of the first response the
  // number was read after the snapshot.
  datatype Session = Session(pub: Bytes, looked: nat, within: bool, filter: Filter, baseLen: nat, numberLast: bool,
                             hello: Option<Msg>, sent: seq<Msg>, pending: seq<Item>, phase: Phase)

  predicate Listening(sess: Session) {
    !sess.phase.LookedUp? && !sess.phase.Cancelled?
  }

  // ----- what has reached the session -----

  function InFlight(p: Phase): seq<Item> {
    match p
    case Drained(b) => b
    case Numbered(b, _) => b
    case Failing(b) => b
    case Cancelled(b) => b
    case _ => []
  }

  function Concat(ms: seq<Msg>): seq<Item> {
    if ms == [] then [] else Concat(ms[..|ms| - 1]) + ms[|ms| - 1].items
  }

  // Sent batches, then the batch in flight, then the queue.
  function Received(sess: Session): seq<Item> {
    Concat(sess.sent) + InFlight(sess.phase) + sess.pending
  }

  // ----- what should reach it -----

  predicate Wanted(f: Filter, i: nat, log: Log) {
    f.since <= i && (f.until.Some? ==> i < f.until.value) && Matches(f.addr, f.topics, log)
  }

  // What the callback appends for a log; the pub/sub callback throws on a malformed message.
  function Items(cfg: Config, want: Want, e: Entry): seq<Item> {
    match want
    case Receipts => [Rc(e.blk, e.log.topics, e.log.data)]
    case Pubsub =>
      match cfg.decodeMsg(e.log.data)
      case None => []
      case Some(msg) => [Ev(e.blk, msg)]
  }

  // Every matching log dispatched while the session listened.
  function Ideal(cfg: Config, f: Filter, h: seq<Entry>): seq<Item> {
    if h == [] then [] else
    Ideal(cfg, f, h[..|h| - 1]) +
    if Wanted(f, |h| - 1, h[|h| - 1].log) then Items(cfg, f.want, h[|h| - 1]) else []
  }

  // The same without the logs whose callback has not run for session s.
  function Stream(cfg: Config, s: nat, f: Filter, h: seq<Entry>, missed: seq<set<nat>>): seq<Item>
    requires |missed| == |h|
  {
    if h == [] then [] else
    Stream(cfg, s, f, h[..|h| - 1], missed[..|h| - 1]) +
    if Wanted(f, |h| - 1, h[|h| - 1].log) && s !in missed[|h| - 1] then Items(cfg, f.want, h[|h| - 1]) else []
  }

  lemma {:induction false} StreamBeforeListen(cfg: Config, s: nat, f: Filter, h: seq<Entry>, missed: seq<set<nat>>)
    requires |missed| == |h| <= f.since
    ensures Stream(cfg, s, f, h, missed) == []
  {
    if h != [] {
      StreamBeforeListen(cfg, s, f, h[..|h| - 1], missed[..|h| - 1]);
    }
  }

  // Cancelling now takes nothing back.
  lemma {:induction false} StreamCancel(cfg: Config, s: nat, f: Filter, n: nat, h: seq<Entry>, missed: seq<set<nat>>)
    requires |missed| == |h| <= n && f.until.None?
    ensures Stream(cfg, s, f.(until := Some(n)), h, missed) == Stream(cfg, s, f, h, missed)
  {
    if h != [] {
      StreamCancel(cfg, s, f, n, h[..|h| - 1], missed[..|h| - 1]);
    }
  }

  // A callback runs for session t: only t's stream grows.
  lemma StreamDeliver(cfg: Config, s: nat, f: Filter, h: seq<Entry>, missed: seq<set<nat>>, t: nat)
    requires |missed| == |h| > 0 && t in missed[|h| - 1]
    ensures Stream(cfg, s, f, h, missed[|h| - 1 := missed[|h| - 1] - {t}]) == Stream(cfg, s, f, h, missed) +
            if s == t && Wanted(f, |h| - 1, h[|h| - 1].log) then Items(cfg, f.want, h[|h| - 1]) else []
  {
    assert missed[|h| - 1 := missed[|h| - 1] - {t}][..|h| - 1] == missed[..|h| - 1];
  }

  // Nothing is missing exactly where the callbacks that did not run would have appended nothing.
  ghost predicate MissesNothing(cfg: Config, s: nat, f: Filter, h: seq<Entry>, missed: seq<set<nat>>)
    requires |missed| == |h|
  {
    forall i | 0 <= i < |h| && s in missed[i] :: Wanted(f, i, h[i].log) ==> Items(cfg, f.want, h[i]) == []
  }

  lemma {:induction false} StreamIsIdeal(cfg: Config, s: nat, f: Filter, h: seq<Entry>, missed: seq<set<nat>>)
    requires |missed| == |h|
    ensures Stream(cfg, s, f, h, missed) == Ideal(cfg, f, h) <==> MissesNothing(cfg, s, f, h, missed)
    ensures |Stream(cfg, s, f, h, missed)| <= |Ideal(cfg, f, h)|
  {
    if h != [] {
      var hh, mm, n := h[..|h| - 1], missed[..|h| - 1], |h| - 1;
      StreamIsIdeal(cfg, s, f, hh, mm);
      assert forall i | 0 <= i < n :: hh[i] == h[i] && mm[i] == missed[i];
      assert MissesNothing(cfg, s, f, h, missed) <==>
             (&& MissesNothing(cfg, s, f, hh, mm)
              && (s in missed[n] && Wanted(f, n, h[n].log) ==> Items(cfg, f.want, h[n]) == []));
      var a, b := Stream(cfg, s, f, hh, mm), Ideal(cfg, f, hh);
      if Stream(cfg, s, f, h, missed) == Ideal(cfg, f, h) {
        assert |a| == |b|;
        assert a == Stream(cfg, s, f, h, missed)[..|a|] && b == Ideal(cfg, f, h)[..|b|];
      }
    }
  }

  // Everything in a stream comes from a wanted log.
  lemma {:induction false} StreamSource(cfg: Config, s: nat, f: Filter, h: seq<Entry>, missed: seq<set<nat>>, j: nat)
      returns (i: nat)
    requires |missed| == |h| && j < |Stream(cfg, s, f, h, missed)|
    ensures i < |h| && Wanted(f, i, h[i].log) && s !in missed[i]
    ensures Items(cfg, f.want, h[i]) == [Stream(cfg, s, f, h, missed)[j]]
  {
    var hh, mm := h[..|h| - 1], missed[..|h| - 1];
    if j < |Stream(cfg, s, f, hh, mm)| {
      i := StreamSource(cfg, s, f, hh, mm, j);
    } else {
      i := |h| - 1;
    }
  }

  // ----- the steps of a session -----

  function Looked(pub: Bytes, mgr: Addr, notifyTopic: Topic, now: nat, within: bool): Session {
    Session(pub, now, within, Filter(Pubsub, mgr, [notifyTopic], 0, None), 0, false, None, [], [], LookedUp)
  }

  function Listened(sess: Session, now: nat, backlogLen: nat): Session {
    sess.(filter := sess.filter.(since := now), baseLen := backlogLen, phase := Responding(None, None))
  }

  function HelloNumber(sess: Session, last: BlkNum, backlogLen: nat): Session
    requires sess.phase.Responding?
  {
    sess.(numberLast := sess.phase.past.Some?, phase := sess.phase.(num := Some(NumRead(last, backlogLen))))
  }

  function HelloPast(sess: Session, backlog: seq<Item>): Session
    requires sess.phase.Responding?
  {
    sess.(phase := sess.phase.(past := Some(backlog)))
  }

  function Greeted(sess: Session, ok: bool): Session
    requires sess.phase.Responding? && sess.phase.num.Some? && sess.phase.past.Some?
  {
    if ok
    then sess.(hello := Some(Msg(sess.phase.num.value.num, sess.phase.past.value, sess.phase.num.value.mark)),
               phase := Waiting)
    else sess.(phase := Stuck)
  }

  function ReceiptSession(addr: Addr, topics: seq<Topic>, now: nat): Session {
    Session([], now, false, Filter(Receipts, addr, topics, now, None), 0, false, None, [], [], Waiting)
  }

  function Delivered(sess: Session, items: seq<Item>): Session {
    sess.(pending := sess.pending + items)
  }

  function Drain(sess: Session): Session {
    sess.(phase := Drained(sess.pending), pending := [])
  }

  function Number(sess: Session, last: BlkNum): Session
    requires sess.phase.Drained?
  {
    sess.(phase := Numbered(sess.phase.batch, NumRead(last, |Received(sess)|)))
  }

  function Sent(sess: Session): Session
    requires sess.phase.Numbered?
  {
    sess.(sent := sess.sent + [Msg(sess.phase.read.num, sess.phase.batch, sess.phase.read.mark)], phase := Waiting)
  }

  function Failed(sess: Session): Session
    requires sess.phase.Drained? || sess.phase.Numbered?
  {
    sess.(phase := Failing(sess.phase.batch))
  }

  function Cancel(sess: Session, now: nat): Session
    requires sess.phase.Failing?
  {
    sess.(phase := Cancelled(sess.phase.batch), filter := sess.filter.(until := Some(now)))
  }

  lemma ConcatPush(ms: seq<Msg>, m: Msg)
    ensures Concat(ms + [m]) == Concat(ms) + m.items
  {
    assert (ms + [m])[..|ms|] == ms;
  }

  // The heartbeat only moves what was received along: queue, flight, sent.
  lemma HeartbeatConserves(sess: Session, last: BlkNum, now: nat)
    ensures InFlight(sess.phase) == [] ==> Received(Drain(sess)) == Received(sess)
    ensures sess.phase.Drained? ==> Received(Number(sess, last)) == Received(sess)
    ensures sess.phase.Numbered? ==> Received(Sent(sess)) == Received(sess)
    ensures sess.phase.Drained? || sess.phase.Numbered? ==> Received(Failed(sess)) == Received(sess)
    ensures sess.phase.Failing? ==> Received(Cancel(sess, now)) == Received(sess)
  {
    if sess.phase.Numbered? {
      ConcatPush(sess.sent, Msg(sess.phase.read.num, sess.phase.batch, sess.phase.read.mark));
    }
  }
}

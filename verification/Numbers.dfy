/** What the block numbers mean at every step of every run: the pusher's cursor, the number in a
    message against the events in it, and the order of what is delivered. */
module Numbers {
  import opened Eth
  import opened Service
  import opened Sessions
  import opened Pusher
  import opened System

  // The cursor counts the pushes. While Geth is honest the pushed blocks are start, start + 1, ... and
  // the numbers of processed blocks never fall; they always rise if no block's processing throws.
  ghost predicate PushInv(st: State) {
    var p := st.push;
    && (st.strict ==> st.ordered)
    && p.cursor == NumberAt(p.start, |p.pushed|)
    && (p.honest ==>
          && (forall i | 0 <= i < |p.pushed| :: p.pushed[i] == NumberAt(p.start, i))
          && st.ordered
          && (p.inHand.Some? ==> p.inHand.value == p.cursor && p.cursor + 1 < TWO_TO_THE_64)
          && (st.last.Blk? ==> st.last.n <= p.cursor))
    && (p.honest && p.smooth ==> st.strict && (st.last.Blk? && st.block.Idle? ==> st.last.n < p.cursor))
  }

  // The last validated number is that of the block being processed.
  ghost predicate BlockInv(st: State) {
    && Wf(st)
    && (!st.block.Idle? ==> st.last == Blk(st.block.num) && st.push.inHand == Some(st.block.num))
    && (st.block.Dispatching? ==> Current(st).blk == st.block.num && Current(st).ord == st.ord)
  }

  lemma PushHost(st: State, h: HostStep)
    requires PushInv(st) && BlockInv(st) && HostEnabled(st, h)
    ensures PushInv(HostDo(st, h)) && BlockInv(HostDo(st, h))
  {
    BumpNumberAt(st.push.start, |st.push.pushed|);
  }

  lemma BlockDispatch(cfg: Config, st: State, d: DispatchStep)
    requires BlockInv(st) && DispatchEnabled(cfg, st, d)
    ensures BlockInv(DispatchDo(cfg, st, d))
  {}

  lemma PushDispatch(cfg: Config, st: State, d: DispatchStep)
    requires PushInv(st) && DispatchEnabled(cfg, st, d)
    ensures PushInv(DispatchDo(cfg, st, d))
  {
    DispatchFrame(cfg, st, d);
  }

  // ----- numbers read while no block is processed -----

  // A number read so far: no later than the last validated one, and earlier than a block under way.
  predicate Settled(num: BlkNum, last: BlkNum, idle: bool) {
    num.Blk? ==> last.Blk? && num.n <= last.n && (!idle ==> num.n < last.n)
  }

  // What comes after the mark is of a later block than the number read at the mark.
  predicate ReadOk(r: NumRead, items: seq<Item>, last: BlkNum, idle: bool, strict: bool) {
    r.mark <= |items| && (strict ==> Settled(r.num, last, idle) && After(items[r.mark..], r.num))
  }

  predicate Ordered(items: seq<Item>, last: BlkNum) {
    Sorted(items) && UpTo(items, last)
  }

  lemma OrderedAppend(items: seq<Item>, it: Item, last: BlkNum)
    requires Ordered(items, last) && last == Blk(it.blk)
    ensures Ordered(items + [it], last)
  {}

  lemma ReadAppend(r: NumRead, items: seq<Item>, it: Item, last: BlkNum, strict: bool)
    requires ReadOk(r, items, last, false, strict) && last == Blk(it.blk)
    ensures ReadOk(r, items + [it], last, false, strict)
  {
    assert (items + [it])[r.mark..] == items[r.mark..] + [it];
  }

  function ReadOf(m: Msg): NumRead {
    NumRead(m.num, m.mark)
  }

  // ----- heartbeats -----

  // Every heartbeat's events are of blocks up to its number; everything received after a number was
  // read is of a later block; and the next batch holds everything received by then.
  ghost predicate BeatsOk(sess: Session, last: BlkNum, idle: bool, ordered: bool, strict: bool) {
    var rec := Received(sess);
    && (ordered ==> Ordered(rec, last))
    && (forall k | 0 <= k < |sess.sent| ::
          && ReadOk(ReadOf(sess.sent[k]), rec, last, idle, strict)
          && (ordered ==> UpTo(sess.sent[k].items, sess.sent[k].num)))
    && (sess.phase.Numbered? ==>
          && ReadOk(sess.phase.read, rec, last, idle, strict)
          && (ordered ==> UpTo(sess.phase.batch, sess.phase.read.num)))
    && MarksCovered(sess.sent)
    && (sess.sent != [] && Beating(sess.phase) ==>
          sess.sent[|sess.sent| - 1].mark <= |Concat(sess.sent)| + |InFlight(sess.phase)|)
  }

  // The queue has been swapped out since the last send.
  predicate Beating(p: Phase) {
    p.Drained? || p.Numbered? || p.Failing? || p.Cancelled?
  }

  lemma BeatsDeliver(sess: Session, it: Item, last: BlkNum, ordered: bool, strict: bool)
    requires BeatsOk(sess, last, false, ordered, strict) && last == Blk(it.blk)
    ensures BeatsOk(Delivered(sess, [it]), last, false, ordered, strict)
  {
    var rec, sess' := Received(sess), Delivered(sess, [it]);
    assert Received(sess') == rec + [it];
    if ordered {
      OrderedAppend(rec, it, last);
    }
    forall k | 0 <= k < |sess.sent| ensures ReadOk(ReadOf(sess.sent[k]), rec + [it], last, false, strict) {
      ReadAppend(ReadOf(sess.sent[k]), rec, it, last, strict);
    }
    if sess.phase.Numbered? {
      ReadAppend(sess.phase.read, rec, it, last, strict);
    }
  }

  lemma BeatsBegin(sess: Session, last: BlkNum, num: nat, ordered: bool, strict: bool)
    requires BeatsOk(sess, last, true, ordered, strict)
    ensures BeatsOk(sess, Blk(num), false, ordered && (last.Blk? ==> last.n <= num),
                    strict && (last.Blk? ==> last.n < num))
  {}

  lemma BeatsSend(sess: Session, last: BlkNum, idle: bool, ordered: bool, strict: bool)
    requires BeatsOk(sess, last, idle, ordered, strict) && sess.phase.Numbered?
    ensures BeatsOk(Sent(sess), last, idle, ordered, strict)
  {
    var sess', n := Sent(sess), |sess.sent|;
    HeartbeatConserves(sess, last, 0);
    MarksPush(sess.sent, sess'.sent[n]);
    assert ReadOf(sess'.sent[n]) == sess.phase.read && sess'.sent[n].items == sess.phase.batch;
    forall k | 0 <= k < n ensures sess'.sent[k] == sess.sent[k] {}
  }

  // Every message but the last has its mark within what the next one completes.
  predicate MarksCovered(ms: seq<Msg>) {
    forall k | 0 <= k < |ms| - 1 :: ms[k].mark <= |Concat(ms[..k + 2])|
  }

  lemma MarksPush(ms: seq<Msg>, m: Msg)
    requires MarksCovered(ms) && (ms != [] ==> ms[|ms| - 1].mark <= |Concat(ms)| + |m.items|)
    ensures MarksCovered(ms + [m]) && Concat(ms + [m]) == Concat(ms) + m.items
  {
    ConcatPush(ms, m);
    forall k | 0 <= k < |ms| ensures (ms + [m])[k].mark <= |Concat((ms + [m])[..k + 2])| {
      if k < |ms| - 1 {
        assert (ms + [m])[..k + 2] == ms[..k + 2];
      } else {
        assert (ms + [m])[..k + 2] == ms + [m];
      }
    }
  }

  lemma UpToMiddle(a: seq<Item>, b: seq<Item>, c: seq<Item>, num: BlkNum)
    requires UpTo(a + b + c, num)
    ensures UpTo(b, num)
  {
    forall i | 0 <= i < |b| ensures NotAfter(b[i], num) {
      assert b[i] == (a + b + c)[|a| + i];
    }
  }

  lemma BeatsReadNumber(sess: Session, last: BlkNum, ordered: bool, strict: bool)
    requires BeatsOk(sess, last, true, ordered, strict) && sess.phase.Drained?
    ensures BeatsOk(Number(sess, last), last, true, ordered, strict)
  {
    HeartbeatConserves(sess, last, 0);
    if ordered {
      UpToMiddle(Concat(sess.sent), sess.phase.batch, sess.pending, last);
    }
    assert ReadOk(Number(sess, last).phase.read, Received(sess), last, true, strict);
  }

  lemma BeatsOther(sess: Session, last: BlkNum, idle: bool, ordered: bool, strict: bool, now: nat)
    requires BeatsOk(sess, last, idle, ordered, strict)
    ensures sess.phase.Waiting? ==> BeatsOk(Drain(sess), last, idle, ordered, strict)
    ensures sess.phase.Drained? || sess.phase.Numbered? ==> BeatsOk(Failed(sess), last, idle, ordered, strict)
    ensures sess.phase.Failing? ==> BeatsOk(Cancel(sess, now), last, idle, ordered, strict)
  {
    HeartbeatConserves(sess, last, now);
  }

  // A step of a subscription that is not yet, or will not be, in its heartbeats.
  lemma BeatsQuiet(sess: Session, next: Session, last: BlkNum, idle: bool, ordered: bool, strict: bool)
    requires BeatsOk(sess, last, idle, ordered, strict)
    requires next.sent == sess.sent && next.pending == sess.pending
    requires InFlight(sess.phase) == InFlight(next.phase) == []
    requires !Beating(next.phase)
    ensures BeatsOk(next, last, idle, ordered, strict)
  {
    assert Received(next) == Received(sess);
  }

  lemma BeatsOwn(cfg: Config, st: State, s: nat, step: ClientStep)
    requires ClientEnabled(st, s, step)
    requires s in st.sessions ==> BeatsOk(st.sessions[s], st.last, st.block.Idle?, st.ordered, st.strict)
    ensures BeatsOk(ClientDo(cfg, st, s, step), st.last, st.block.Idle?, st.ordered, st.strict)
  {
    if step.Send? {
      BeatsSend(st.sessions[s], st.last, st.block.Idle?, st.ordered, st.strict);
    } else if step.ReadNumber? {
      BeatsReadNumber(st.sessions[s], st.last, st.ordered, st.strict);
    } else if step.DrainQueue? || step.Fail? || step.CancelListener? {
      BeatsOther(st.sessions[s], st.last, st.block.Idle?, st.ordered, st.strict, |st.history|);
    } else if s in st.sessions {
      BeatsQuiet(st.sessions[s], ClientDo(cfg, st, s, step), st.last, st.block.Idle?, st.ordered, st.strict);
    }
  }

  // ----- backlogs and first responses -----

  // The first response holds a prefix of the backlog that is at least what the backlog held at the
  // Listen; the events before its mark are of blocks up to its number, those after it of later blocks.
  // A number read after the snapshot has its mark past the snapshot.
  ghost predicate HelloOk(sess: Session, b: seq<Item>, last: BlkNum, idle: bool, ordered: bool, strict: bool) {
    && (!sess.phase.LookedUp? ==> sess.baseLen <= |b|)
    && (sess.hello.Some? ==> !sess.phase.LookedUp? && !sess.phase.Responding?)
    && (sess.phase.Responding? ==>
          && (sess.phase.num.Some? ==> HelloRead(sess.phase.num.value, b, last, idle, ordered, strict))
          && (sess.phase.past.Some? ==> sess.phase.past.value <= b && sess.baseLen <= |sess.phase.past.value|)
          && (sess.phase.num.Some? && sess.numberLast ==>
                sess.phase.past.Some? && |sess.phase.past.value| <= sess.phase.num.value.mark))
    && (sess.hello.Some? ==>
          && HelloRead(ReadOf(sess.hello.value), b, last, idle, ordered, strict)
          && sess.hello.value.items <= b && sess.baseLen <= |sess.hello.value.items|
          && (sess.numberLast ==> |sess.hello.value.items| <= sess.hello.value.mark))
  }

  predicate HelloRead(r: NumRead, b: seq<Item>, last: BlkNum, idle: bool, ordered: bool, strict: bool) {
    ReadOk(r, b, last, idle, strict) && (ordered ==> UpTo(b[..r.mark], r.num))
  }

  lemma HelloAppend(sess: Session, b: seq<Item>, it: Item, last: BlkNum, ordered: bool, strict: bool)
    requires HelloOk(sess, b, last, false, ordered, strict) && last == Blk(it.blk)
    ensures HelloOk(sess, b + [it], last, false, ordered, strict)
  {}

  lemma HelloBegin(sess: Session, b: seq<Item>, last: BlkNum, num: nat, ordered: bool, strict: bool)
    requires HelloOk(sess, b, last, true, ordered, strict)
    ensures HelloOk(sess, b, Blk(num), false, ordered && (last.Blk? ==> last.n <= num),
                    strict && (last.Blk? ==> last.n < num))
  {}

  lemma HelloOwn(cfg: Config, st: State, s: nat, step: ClientStep)
    requires ClientEnabled(st, s, step)
    requires s in st.sessions ==>
      var b := PastOf(st.svc, st.sessions[s].filter.addr);
      && HelloOk(st.sessions[s], b, st.last, st.block.Idle?, st.ordered, st.strict)
      && (st.ordered ==> Ordered(b, st.last))
    ensures var sess' := ClientDo(cfg, st, s, step);
            HelloOk(sess', PastOf(st.svc, sess'.filter.addr), st.last, st.block.Idle?, st.ordered, st.strict)
  {
    if step.ReadHelloNumber? {
      var b := PastOf(st.svc, st.sessions[s].filter.addr);
      assert b[..|b|] == b;
    }
  }

  // ----- the invariant -----

  ghost predicate NumbersInv(st: State) {
    && PushInv(st) && BlockInv(st)
    && (st.ordered ==> forall mgr: Addr :: Ordered(PastOf(st.svc, mgr), st.last))
    && (forall s | s in st.sessions :: SessionNumbers(st, st.sessions[s]))
  }

  ghost predicate SessionNumbers(st: State, sess: Session) {
    && BeatsOk(sess, st.last, st.block.Idle?, st.ordered, st.strict)
    && HelloOk(sess, PastOf(st.svc, sess.filter.addr), st.last, st.block.Idle?, st.ordered, st.strict)
  }

  lemma NumbersClient(cfg: Config, st: State, s: nat, step: ClientStep)
    requires NumbersInv(st) && ClientEnabled(st, s, step)
    ensures NumbersInv(SetSession(cfg, st, s, step))
  {
    BeatsOwn(cfg, st, s, step);
    HelloOwn(cfg, st, s, step);
    var st', sess' := SetSession(cfg, st, s, step), ClientDo(cfg, st, s, step);
    forall t | t in st'.sessions ensures SessionNumbers(st', st'.sessions[t]) {
      if t != s {
        assert SessionNumbers(st, st.sessions[t]);
      }
    }
  }

  lemma NumbersHost(st: State, h: HostStep)
    requires NumbersInv(st) && HostEnabled(st, h)
    ensures NumbersInv(HostDo(st, h))
  {
    PushHost(st, h);
    var st' := HostDo(st, h);
    forall t | t in st'.sessions ensures SessionNumbers(st', st'.sessions[t]) {
      assert SessionNumbers(st, st.sessions[t]);
      if h.Begin? {
        BeatsBegin(st.sessions[t], st.last, st'.last.n, st.ordered, st.strict);
        var b := PastOf(st.svc, st.sessions[t].filter.addr);
        HelloBegin(st.sessions[t], b, st.last, st'.last.n, st.ordered, st.strict);
      }
    }
  }

  // Of the service's handlers only the past-event one changes a backlog.
  lemma HandlerBacklogs(cfg: Config, svc: ServiceState, pub: Bytes, mgr: Addr, ord: nat, k: nat, it: Item, a: Addr)
    ensures PastOf(WriteMap(svc, pub, mgr), a) == PastOf(svc, a)
    ensures PastOf(Emplace(svc, mgr), a) == PastOf(svc, a)
    ensures PastOf(ListenPast(cfg, svc, mgr, ord), a) == PastOf(svc, a)
    ensures k < |svc.listeners| ==> PastOf(OnDeploy(cfg, svc, k, ord), a) == PastOf(svc, a)
    ensures PastOf(AppendPast(svc, mgr, it), a) == PastOf(svc, a) + if a == mgr && mgr in svc.backlog then [it] else []
  {}

  // A backlog changes by one event of the block being processed.
  ghost predicate GrowsBy(b: seq<Item>, b': seq<Item>, last: BlkNum) {
    b' == b || (|b'| == |b| + 1 && b' == b + [b'[|b|]] && Blk(b'[|b|].blk) == last)
  }

  lemma RegStepBacklog(cfg: Config, st: State, a: Addr)
    requires DispatchEnabled(cfg, st, RegStep)
    ensures PastOf(RegistrationStep(cfg, st).svc, a) == PastOf(st.svc, a)
  {
    var r := st.block.reg.value;
    HandlerBacklogs(cfg, st.svc, r.pub, r.mgr, Current(st).ord, 0, Ev(0, []), a);
  }

  lemma CallbackBacklog(cfg: Config, st: State, k: nat, a: Addr)
    requires BlockInv(st) && DispatchEnabled(cfg, st, CallService(k))
    ensures GrowsBy(PastOf(st.svc, a), PastOf(RunCallback(cfg, st, k).svc, a), st.last)
  {
    var e := Current(st);
    var it := if cfg.decodeMsg(e.log.data).Some? then Ev(e.blk, cfg.decodeMsg(e.log.data).value) else Ev(0, []);
    HandlerBacklogs(cfg, st.svc, [], e.log.addr, e.ord, k, it, a);
  }

  lemma BacklogChange(cfg: Config, st: State, d: DispatchStep, a: Addr)
    requires BlockInv(st) && DispatchEnabled(cfg, st, d)
    ensures GrowsBy(PastOf(st.svc, a), PastOf(DispatchDo(cfg, st, d).svc, a), st.last)
  {
    match d
    case RegStep => RegStepBacklog(cfg, st, a);
    case CallService(k) => CallbackBacklog(cfg, st, k, a);
    case _ => DispatchFrame(cfg, st, d);
  }

  lemma OneItem(cfg: Config, want: Want, e: Entry)
    requires !SessionThrows(cfg, want, e.log)
    ensures |Items(cfg, want, e)| == 1 && Items(cfg, want, e)[0].blk == e.blk
  {}

  lemma DeliverNumbers(st: State, sess: Session, items: seq<Item>)
    requires SessionNumbers(st, sess) && !st.block.Idle? && |items| == 1 && st.last == Blk(items[0].blk)
    ensures SessionNumbers(st, Delivered(sess, items))
  {
    assert items == [items[0]];
    BeatsDeliver(sess, items[0], st.last, st.ordered, st.strict);
  }

  lemma NumbersCallSession(cfg: Config, st: State, s: nat)
    requires NumbersInv(st) && DispatchEnabled(cfg, st, CallSession(s))
    ensures NumbersInv(RunSession(cfg, st, s))
  {
    var st', sess := RunSession(cfg, st, s), st.sessions[s];
    assert SessionNumbers(st, sess);
    OneItem(cfg, sess.filter.want, Current(st));
    DeliverNumbers(st, sess, Items(cfg, sess.filter.want, Current(st)));
    PushDispatch(cfg, st, CallSession(s));
    BlockDispatch(cfg, st, CallSession(s));
    forall t | t in st'.sessions ensures SessionNumbers(st', st'.sessions[t]) {
      if t != s {
        assert SessionNumbers(st, st.sessions[t]);
      } else {
        assert st'.sessions[s] == Delivered(sess, Items(cfg, sess.filter.want, Current(st)));
      }
    }
  }

  lemma NumbersCallbacks(cfg: Config, st: State, d: DispatchStep)
    requires NumbersInv(st) && DispatchEnabled(cfg, st, d) && (d.CallService? || d.RegStep?)
    ensures NumbersInv(DispatchDo(cfg, st, d))
  {
    PushDispatch(cfg, st, d);
    BlockDispatch(cfg, st, d);
    DispatchFrame(cfg, st, d);
    var st' := DispatchDo(cfg, st, d);
    forall mgr: Addr | st.ordered ensures Ordered(PastOf(st'.svc, mgr), st'.last) {
      BacklogChange(cfg, st, d, mgr);
      var b, b' := PastOf(st.svc, mgr), PastOf(st'.svc, mgr);
      if b' != b {
        OrderedAppend(b, b'[|b|], st.last);
      }
    }
    forall t | t in st'.sessions ensures SessionNumbers(st', st'.sessions[t]) {
      var sess := st.sessions[t];
      assert SessionNumbers(st, sess);
      BacklogChange(cfg, st, d, sess.filter.addr);
      var b, b' := PastOf(st.svc, sess.filter.addr), PastOf(st'.svc, sess.filter.addr);
      if b' != b {
        HelloAppend(sess, b, b'[|b|], st.last, st.ordered, st.strict);
      }
    }
  }

  lemma NumbersDispatch(cfg: Config, st: State, d: DispatchStep)
    requires NumbersInv(st) && DispatchEnabled(cfg, st, d)
    ensures NumbersInv(DispatchDo(cfg, st, d))
  {
    if d.CallSession? {
      NumbersCallSession(cfg, st, d.s);
    } else if d.CallService? || d.RegStep? {
      NumbersCallbacks(cfg, st, d);
    } else {
      PushDispatch(cfg, st, d);
      BlockDispatch(cfg, st, d);
      DispatchFrame(cfg, st, d);
      var st' := DispatchDo(cfg, st, d);
      forall t | t in st'.sessions ensures SessionNumbers(st', st'.sessions[t]) {
        assert SessionNumbers(st, st.sessions[t]);
      }
    }
  }
}

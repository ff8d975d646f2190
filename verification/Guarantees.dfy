/** What the service and its subscribers can rely on in every reachable state. */
module Guarantees {
  import opened Eth
  import opened Service
  import opened ServiceHistory
  import opened Sessions
  import opened Pusher
  import opened System
  import opened ServiceSafety
  import opened Conservation
  import opened Numbers
  import opened Handover
  import opened Runs

  // ----- the service -----

  // Between logs the service is the fold of the dispatched logs: the map holds each publisher's last
  // registration, every backlog is the replay of its manager's notifications, and the listener table
  // has one past listener per registration.
  lemma ServiceRefinesFold(cfg: Config, st: State)
    requires cfg.Valid() && Reachable(cfg, st) && !st.block.Dispatching?
    ensures st.svc == Fold(cfg, st.history) && Shape(cfg, st.svc)
    ensures st.svc.deployed <==> HeardFrom(cfg, st.history).Some?
    ensures forall pub: Bytes :: EventMgrOf(st.svc, pub) == LastRegistered(cfg, st.history, pub)
    ensures forall mgr: Addr :: PastOf(st.svc, mgr) == Replay(cfg, st.history, mgr)
    ensures forall mgr: Addr, ord: nat ::
              |PastDue(st.svc.listeners, mgr, ord)| == Registrations(cfg, st.history, mgr, ord)
  {
    ReachableService(cfg, st);
    FoldShape(cfg, st.history);
    DeployedMeaning(cfg, st.history, 0);
    forall pub: Bytes ensures EventMgrOf(st.svc, pub) == LastRegistered(cfg, st.history, pub) {
      LookupMeaning(cfg, st.history, pub);
    }
    forall mgr: Addr ensures PastOf(st.svc, mgr) == Replay(cfg, st.history, mgr) {
      BacklogMeaning(cfg, st.history, mgr);
    }
    forall mgr: Addr, ord: nat
      ensures |PastDue(st.svc.listeners, mgr, ord)| == Registrations(cfg, st.history, mgr, ord)
    {
      PastListenersCount(cfg, st.history, mgr, ord);
    }
  }

  // The backlog has every event of its manager once, or exactly when it does not: a notification was
  // dispatched while two registrations named the manager.
  lemma BacklogExact(cfg: Config, st: State, mgr: Addr)
    requires cfg.Valid() && Reachable(cfg, st) && !st.block.Dispatching?
    ensures PastOf(st.svc, mgr) == Once(cfg, st.history, mgr) <==> SingleListener(cfg, st.history, mgr)
    ensures |PastOf(st.svc, mgr)| >= |Once(cfg, st.history, mgr)|
  {
    ReachableService(cfg, st);
    BacklogOnce(cfg, st.history, mgr);
  }

  // The past-event handler always finds its queue.
  lemma PastStoreAlwaysFound(cfg: Config, st: State, k: nat)
    requires cfg.Valid() && Reachable(cfg, st) && DispatchEnabled(cfg, st, CallService(k))
    requires st.svc.listeners[k].kind.Past?
    ensures Current(st).log.addr in st.svc.backlog && st.svc.listeners[k].addr == Current(st).log.addr
  {
    ReachableService(cfg, st);
    var base, e := Base(cfg, st), Current(st);
    FoldShape(cfg, st.history[..|st.history| - 1]);
    CallbackKind(cfg, base, e, k);
    DueByKind(cfg, base, e.log, e.ord);
    if IsNotify(cfg, e.log) {
      PastFound(cfg, st, k);
      PastHasQueue(cfg, base, e, k);
      PartialPast(cfg, base, e, st.block.todo, k);
    } else if IsDeploy(cfg, e.log) {
      PartialDeploy(cfg, base, e, st.block.todo, k);
    } else {
      PartialRegistration(cfg, base, e, st.block.todo, k);
    }
  }

  // The deployed flag is never reset, and no step takes a queue away or drops or reorders an entry.
  lemma ServiceOnlyGrows(cfg: Config, st: State, a: Action, mgr: Addr)
    requires Enabled(cfg, st, a)
    ensures st.svc.deployed ==> Do(cfg, st, a).svc.deployed
    ensures st.svc.backlog.Keys <= Do(cfg, st, a).svc.backlog.Keys
    ensures PastOf(st.svc, mgr) <= PastOf(Do(cfg, st, a).svc, mgr)
  {
    if a.Dispatch? && a.d.RegStep? {
      RegStepGrows(cfg, st, mgr);
    } else if a.Dispatch? && a.d.CallService? {
      CallbackGrows(cfg, st, a.d.k, mgr);
    } else if a.Dispatch? {
      DispatchFrame(cfg, st, a.d);
    }
  }

  lemma RegStepGrows(cfg: Config, st: State, mgr: Addr)
    requires DispatchEnabled(cfg, st, RegStep)
    ensures st.svc.deployed ==> RegistrationStep(cfg, st).svc.deployed
    ensures st.svc.backlog.Keys <= RegistrationStep(cfg, st).svc.backlog.Keys
    ensures PastOf(st.svc, mgr) <= PastOf(RegistrationStep(cfg, st).svc, mgr)
  {}

  lemma CallbackGrows(cfg: Config, st: State, k: nat, mgr: Addr)
    requires DispatchEnabled(cfg, st, CallService(k))
    ensures st.svc.deployed ==> RunCallback(cfg, st, k).svc.deployed
    ensures st.svc.backlog.Keys <= RunCallback(cfg, st, k).svc.backlog.Keys
    ensures PastOf(st.svc, mgr) <= PastOf(RunCallback(cfg, st, k).svc, mgr)
  {}

  // At every step an address in the publisher map has a backlog queue, except that of a registration
  // between its first and its second step.
  lemma MapNeverAhead(cfg: Config, st: State, pub: Bytes)
    requires cfg.Valid() && Reachable(cfg, st) && pub in st.svc.mgrOf
    ensures || st.svc.mgrOf[pub] in st.svc.backlog
            || (st.block.Dispatching? && st.block.reg.Some? && st.block.reg.value.stage == 1
                && st.svc.mgrOf[pub] == st.block.reg.value.mgr)
  {
    ReachableService(cfg, st);
    if st.block.Dispatching? {
      FoldShape(cfg, st.history[..|st.history| - 1]);
      PartialMapAhead(cfg, Base(cfg, st), Current(st), st.block.todo, st.block.reg, pub);
    } else {
      FoldShape(cfg, st.history);
    }
  }

  lemma PartialMapAhead(cfg: Config, base: ServiceState, e: Entry, todo: set<nat>, reg: Option<Registering>, pub: Bytes)
    requires |base.listeners| > 0 && Shape(cfg, base) && RegFits(cfg, base, e, todo, reg)
    requires pub in Partial(cfg, base, e, todo, reg).mgrOf
    ensures var p := Partial(cfg, base, e, todo, reg);
            p.mgrOf[pub] in p.backlog || (reg.Some? && reg.value.stage == 1 && p.mgrOf[pub] == reg.value.mgr)
  {}

  // ----- delivery -----

  // Sent batches, batch in flight and queue are exactly the matching logs since the Listen, in order
  // and once each, without those whose callback did not run. That is at most the log whose dispatch is
  // under way and logs on which somebody's callback threw.
  lemma DeliveryConserved(cfg: Config, st: State, s: nat)
    requires cfg.Valid() && Reachable(cfg, st) && s in st.sessions && !st.sessions[s].phase.LookedUp?
    ensures Received(st.sessions[s]) == Stream(cfg, s, st.sessions[s].filter, st.history, st.missed)
    ensures forall i | 0 <= i < |st.history| && s in st.missed[i] ::
              CutsOff(cfg, st.sessions, st.history, i) || (st.block.Dispatching? && i == |st.history| - 1)
  {
    ReachableSession(cfg, st, s);
    ReachableConservation(cfg, st);
    assert forall i: nat | i < |st.history| :: Over(st, i) || (st.block.Dispatching? && i == |st.history| - 1);
  }

  // At any step a session has received every matching log exactly when it missed none that would have
  // given it something.
  lemma DeliveryExact(cfg: Config, st: State, s: nat)
    requires cfg.Valid() && Reachable(cfg, st) && s in st.sessions && !st.sessions[s].phase.LookedUp?
    ensures Received(st.sessions[s]) == Ideal(cfg, st.sessions[s].filter, st.history) <==>
            (forall i | 0 <= i < |st.history| && s in st.missed[i] ::
               Wanted(st.sessions[s].filter, i, st.history[i].log) ==>
                 Items(cfg, st.sessions[s].filter.want, st.history[i]) == [])
  {
    DeliveryConserved(cfg, st, s);
    StreamIsIdeal(cfg, s, st.sessions[s].filter, st.history, st.missed);
  }

  // Between logs, and once it is cancelled at every step, a pub/sub session has received every event it
  // wants, whatever logs were malformed, and a receipt session every matching log if nobody's callback
  // threw on one of them.
  lemma DeliveryComplete(cfg: Config, st: State, s: nat)
    requires cfg.Valid() && Reachable(cfg, st) && s in st.sessions && !st.sessions[s].phase.LookedUp?
    requires !st.block.Dispatching? || st.sessions[s].phase.Cancelled?
    requires || st.sessions[s].filter.want.Pubsub?
             || (forall i: nat | i < |st.history| && Wanted(st.sessions[s].filter, i, st.history[i].log) ::
                   !CutsOff(cfg, st.sessions, st.history, i))
    ensures Received(st.sessions[s]) == Ideal(cfg, st.sessions[s].filter, st.history)
  {
    if st.sessions[s].filter.want.Pubsub? {
      DeliveryConserved(cfg, st, s);
      ReachableConservation(cfg, st);
      LiveIsComplete(cfg, st, s, |st.history|);
      assert st.history[..|st.history|] == st.history && st.missed[..|st.history|] == st.missed;
    } else {
      NothingCutOff(cfg, st, s);
      DeliveryExact(cfg, st, s);
    }
  }

  lemma NothingCutOff(cfg: Config, st: State, s: nat)
    requires cfg.Valid() && Reachable(cfg, st) && s in st.sessions && Wf(st)
    requires !st.block.Dispatching? || st.sessions[s].phase.Cancelled?
    requires forall i: nat | i < |st.history| && Wanted(st.sessions[s].filter, i, st.history[i].log) ::
               !CutsOff(cfg, st.sessions, st.history, i)
    ensures forall i: nat | i < |st.history| && s in st.missed[i] ::
              !Wanted(st.sessions[s].filter, i, st.history[i].log)
  {
    forall i: nat | i < |st.history| && s in st.missed[i]
      ensures !Wanted(st.sessions[s].filter, i, st.history[i].log)
    {
      MissedWasCutOff(cfg, st, s, i);
    }
  }

  lemma MissedWasCutOff(cfg: Config, st: State, s: nat, i: nat)
    requires cfg.Valid() && Reachable(cfg, st) && s in st.sessions && Wf(st)
    requires !st.block.Dispatching? || st.sessions[s].phase.Cancelled?
    requires i < |st.history| && s in st.missed[i]
    ensures CutsOff(cfg, st.sessions, st.history, i)
  {
    ReachableConservation(cfg, st);
    assert Over(st, i);
  }

  // When a heartbeat fails, the batch it had drained and what was queued until the Cancel are all that
  // the subscriber was not sent of the logs from its Listen to its Cancel. This holds at every step from
  // then on; for receipts, of a log that was cut off the session may have nothing.
  lemma FailureLosesLastBatch(cfg: Config, st: State, s: nat)
    requires cfg.Valid() && Reachable(cfg, st) && s in st.sessions && st.sessions[s].phase.Cancelled?
    requires || st.sessions[s].filter.want.Pubsub?
             || (forall i: nat | i < |st.history| && Wanted(st.sessions[s].filter, i, st.history[i].log) ::
                   !CutsOff(cfg, st.sessions, st.history, i))
    ensures Concat(st.sessions[s].sent) + st.sessions[s].phase.batch + st.sessions[s].pending ==
            Ideal(cfg, st.sessions[s].filter, st.history)
    ensures st.sessions[s].filter.until.Some? && st.sessions[s].filter.until.value <= |st.history|
  {
    ReachableSession(cfg, st, s);
    DeliveryComplete(cfg, st, s);
  }

  // ... and nothing reaches the session again, whatever happens.
  lemma CancelledIsFinal(cfg: Config, st: State, a: Action, s: nat)
    requires cfg.Valid() && Reachable(cfg, st) && Enabled(cfg, st, a)
    requires s in st.sessions && st.sessions[s].phase.Cancelled?
    ensures s in Do(cfg, st, a).sessions && Do(cfg, st, a).sessions[s] == st.sessions[s]
  {
    if a.Dispatch? {
      ReachableConservation(cfg, st);
      CancelledNotCalled(cfg, st, a.d, s);
    }
  }

  lemma CancelledNotCalled(cfg: Config, st: State, d: DispatchStep, s: nat)
    requires OwedInv(cfg, st) && DispatchEnabled(cfg, st, d)
    requires s in st.sessions && st.sessions[s].phase.Cancelled?
    ensures s in DispatchDo(cfg, st, d).sessions && DispatchDo(cfg, st, d).sessions[s] == st.sessions[s]
  {
    DispatchFrame(cfg, st, d);
    if d.CallSession? {
      assert d.s in Owed(st) && Listening(st.sessions[d.s]);
    }
  }

  // ----- numbers -----

  // The pushed headers are those of blocks start, start + 1, ... in order, without gap or repetition.
  predicate InSequence(p: Push) {
    forall i | 0 <= i < |p.pushed| :: p.pushed[i] == NumberAt(p.start, i)
  }

  // The cursor is always start plus the number of pushes. With an honest Geth the pushed headers are in
  // sequence, the numbers of processed blocks never fall, and they always rise unless the processing of
  // a validated block throws.
  lemma HonestOrder(cfg: Config, st: State)
    requires cfg.Valid() && Reachable(cfg, st)
    ensures st.push.cursor == NumberAt(st.push.start, |st.push.pushed|)
    ensures st.push.honest ==> InSequence(st.push) && st.ordered
    ensures st.push.honest && st.push.smooth ==> st.strict
  {
    ReachableNumbers(cfg, st);
  }

  // Nothing checks the header that Geth returns against the block that was asked for: a push keeps the
  // sequence exactly when the header is the one at the cursor.
  lemma SequenceExact(cfg: Config, st: State)
    requires cfg.Valid() && Reachable(cfg, st) && HostEnabled(st, End(true)) && InSequence(st.push)
    ensures InSequence(HostDo(st, End(true)).push) <==> st.push.inHand.value == st.push.cursor
  {
    ReachableNumbers(cfg, st);
    var p, n := HostDo(st, End(true)).push, |st.push.pushed|;
    assert p.pushed[n] == st.push.inHand.value;
    assert forall i | 0 <= i < n :: p.pushed[i] == st.push.pushed[i];
  }

  // No heartbeat, of events or of receipts, reports a number below a block it has something from.
  lemma HeartbeatSound(cfg: Config, st: State, s: nat, k: nat)
    requires cfg.Valid() && Reachable(cfg, st) && st.ordered && s in st.sessions && k < |st.sessions[s].sent|
    ensures UpTo(st.sessions[s].sent[k].items, st.sessions[s].sent[k].num)
  {
    ReachableSession(cfg, st, s);
  }

  // If heartbeat k reports number N, everything of a block up to N that the session ever receives, before
  // the number was read or after, is at its place in heartbeats up to k + 1.
  lemma OneHeartbeatLag(cfg: Config, st: State, s: nat, k: nat, j: nat)
    requires cfg.Valid() && Reachable(cfg, st) && st.strict && s in st.sessions && k + 1 < |st.sessions[s].sent|
    requires j < |Received(st.sessions[s])| && NotAfter(Received(st.sessions[s])[j], st.sessions[s].sent[k].num)
    ensures j < |Concat(st.sessions[s].sent[..k + 2])|
    ensures Concat(st.sessions[s].sent[..k + 2])[j] == Received(st.sessions[s])[j]
  {
    ReachableSession(cfg, st, s);
    LagBound(st, st.sessions[s], k, j);
  }

  // That is every wanted log of a block up to N, at the place after the wanted logs before it, unless
  // somebody's callback threw on the log before the session's could run.
  lemma LagOfLog(cfg: Config, st: State, s: nat, k: nat, i: nat)
    requires cfg.Valid() && Reachable(cfg, st) && st.strict && s in st.sessions && k + 1 < |st.sessions[s].sent|
    requires i < |st.history| && Wanted(st.sessions[s].filter, i, st.history[i].log)
    requires st.sessions[s].sent[k].num.Blk? && st.history[i].blk <= st.sessions[s].sent[k].num.n
    requires CutsOff(cfg, st.sessions, st.history, i) ==> s !in st.missed[i]
    ensures var f := st.sessions[s].filter;
            var j, items := |Stream(cfg, s, f, st.history[..i], st.missed[..i])|, Items(cfg, f.want, st.history[i]);
            items != [] ==> HasAt(Concat(st.sessions[s].sent[..k + 2]), j, items[0])
  {
    var f, e := st.sessions[s].filter, st.history[i];
    if Items(cfg, f.want, e) != [] {
      PastIsRun(cfg, st, s, k, i);
      ReceivedIsStream(cfg, st, s);
      StreamAt(cfg, s, f, st.history, st.missed, i);
      OneHeartbeatLag(cfg, st, s, k, |Stream(cfg, s, f, st.history[..i], st.missed[..i])|);
    }
  }

  lemma ReceivedIsStream(cfg: Config, st: State, s: nat)
    requires cfg.Valid() && Reachable(cfg, st) && s in st.sessions && st.sessions[s].sent != []
    ensures Received(st.sessions[s]) == Stream(cfg, s, st.sessions[s].filter, st.history, st.missed)
  {
    ReachableSession(cfg, st, s);
  }

  // The log under way is of a later block than any number read before it, so for every earlier block the
  // callbacks are over.
  lemma PastIsRun(cfg: Config, st: State, s: nat, k: nat, i: nat)
    requires cfg.Valid() && Reachable(cfg, st) && st.strict && s in st.sessions && k < |st.sessions[s].sent|
    requires i < |st.history| && st.sessions[s].sent[k].num.Blk?
    requires st.history[i].blk <= st.sessions[s].sent[k].num.n
    requires CutsOff(cfg, st.sessions, st.history, i) ==> s !in st.missed[i]
    ensures Over(st, i) && s !in st.missed[i]
  {
    BeforeCurrent(cfg, st, s, k, st.history[i].blk);
    ReachableConservation(cfg, st);
  }

  lemma BeforeCurrent(cfg: Config, st: State, s: nat, k: nat, blk: nat)
    requires cfg.Valid() && Reachable(cfg, st) && st.strict && s in st.sessions && k < |st.sessions[s].sent|
    requires st.sessions[s].sent[k].num.Blk? && blk <= st.sessions[s].sent[k].num.n
    ensures st.block.Dispatching? ==> blk < Current(st).blk
  {
    ReachableSession(cfg, st, s);
    ReachableNumbers(cfg, st);
    assert ReadOk(ReadOf(st.sessions[s].sent[k]), Received(st.sessions[s]), st.last, st.block.Idle?, st.strict);
  }

  predicate HasAt(items: seq<Item>, j: nat, it: Item) {
    j < |items| && items[j] == it
  }

  lemma LagBound(st: State, sess: Session, k: nat, j: nat)
    requires st.strict && SessionNumbers(st, sess) && k + 1 < |sess.sent| && j < |Received(sess)|
    requires NotAfter(Received(sess)[j], sess.sent[k].num)
    ensures j < |Concat(sess.sent[..k + 2])| && Concat(sess.sent[..k + 2])[j] == Received(sess)[j]
  {
    assert ReadOk(ReadOf(sess.sent[k]), Received(sess), st.last, st.block.Idle?, st.strict);
    BeforeMark(Received(sess), sess.sent[k].mark, sess.sent[k].num, j);
    SentPrefix(sess.sent, k + 2);
    assert Concat(sess.sent)[j] == Received(sess)[j];
  }

  lemma BeforeMark(items: seq<Item>, mark: nat, num: BlkNum, j: nat)
    requires mark <= |items| && After(items[mark..], num) && j < |items| && NotAfter(items[j], num)
    ensures j < mark
  {
    assert forall x | mark <= x < |items| :: items[x] == items[mark..][x - mark];
  }

  lemma {:induction false} SentPrefix(ms: seq<Msg>, n: nat)
    requires n <= |ms|
    ensures Concat(ms[..n]) <= Concat(ms)
  {
    if n == |ms| {
      assert ms[..n] == ms;
    } else {
      SentPrefix(ms[..|ms| - 1], n);
      assert ms[..|ms| - 1][..n] == ms[..n];
    }
  }

  // A wanted log that was not missed is in the stream, after the wanted logs before it.
  lemma {:induction false} StreamAt(cfg: Config, s: nat, f: Filter, h: seq<Entry>, missed: seq<set<nat>>, i: nat)
    requires |missed| == |h| && i < |h| && Wanted(f, i, h[i].log) && s !in missed[i]
    requires Items(cfg, f.want, h[i]) != []
    ensures Items(cfg, f.want, h[i])[0].blk == h[i].blk
    ensures HasAt(Stream(cfg, s, f, h, missed), |Stream(cfg, s, f, h[..i], missed[..i])|, Items(cfg, f.want, h[i])[0])
  {
    var n := |h| - 1;
    if i < n {
      StreamAt(cfg, s, f, h[..n], missed[..n], i);
      assert h[..n][..i] == h[..i] && missed[..n][..i] == missed[..i];
    }
  }

  // The first response: its events before the mark are of blocks up to its number. Where numbers rise
  // it is sound exactly when the snapshot holds nothing past the mark ...
  lemma FirstResponse(cfg: Config, st: State, s: nat)
    requires cfg.Valid() && Reachable(cfg, st) && st.strict && s in st.sessions && st.sessions[s].hello.Some?
    ensures UpTo(st.sessions[s].hello.value.items, st.sessions[s].hello.value.num) <==>
            |st.sessions[s].hello.value.items| <= st.sessions[s].hello.value.mark
  {
    ReachableSession(cfg, st, s);
    ReachableNumbers(cfg, st);
    var sess := st.sessions[s];
    var m, b := sess.hello.value, PastOf(st.svc, sess.filter.addr);
    assert HelloRead(ReadOf(m), b, st.last, st.block.Idle?, st.ordered, st.strict);
    if |m.items| <= m.mark {
      forall i | 0 <= i < |m.items| ensures NotAfter(m.items[i], m.num) {
        assert m.items[i] == b[i] == b[..m.mark][i];
      }
    } else {
      assert m.items[m.mark] == b[m.mark] == b[m.mark..][0];
      assert !NotAfter(m.items[m.mark], m.num);
    }
  }

  // ... which it does whenever the number is read after the snapshot: then the response is sound.
  lemma NumberAfterSnapshot(cfg: Config, st: State, s: nat)
    requires cfg.Valid() && Reachable(cfg, st) && st.ordered && s in st.sessions
    requires st.sessions[s].hello.Some? && st.sessions[s].numberLast
    ensures UpTo(st.sessions[s].hello.value.items, st.sessions[s].hello.value.num)
  {
    ReachableSession(cfg, st, s);
    var m, b := st.sessions[s].hello.value, PastOf(st.svc, st.sessions[s].filter.addr);
    forall i | 0 <= i < |m.items| ensures NotAfter(m.items[i], m.num) {
      assert m.items[i] == b[i] == b[..m.mark][i];
    }
  }

  // End to end: with an honest Geth every backlog, and everything one subscriber is sent, has block
  // numbers that never fall.
  lemma EndToEndOrder(cfg: Config, st: State, mgr: Addr, s: nat)
    requires cfg.Valid() && Reachable(cfg, st) && st.push.honest && s in st.sessions
    ensures var b := PastOf(st.svc, mgr); forall i, j | 0 <= i < j < |b| :: b[i].blk <= b[j].blk
    ensures var b := Concat(st.sessions[s].sent); forall i, j | 0 <= i < j < |b| :: b[i].blk <= b[j].blk
    ensures var b := Received(st.sessions[s]); forall i, j | 0 <= i < j < |b| :: b[i].blk <= b[j].blk
  {
    ReachableNumbers(cfg, st);
    assert Ordered(PastOf(st.svc, mgr), st.last) && SessionNumbers(st, st.sessions[s]);
    var sent, rec := Concat(st.sessions[s].sent), Received(st.sessions[s]);
    forall i, j | 0 <= i < j < |sent| ensures sent[i].blk <= sent[j].blk {
      assert sent[i] == rec[i] && sent[j] == rec[j];
    }
  }

  // ----- hand-over -----

  // The snapshot is a prefix of the backlog that reaches at least to where live delivery began.
  lemma SnapshotIsPrefix(cfg: Config, st: State, s: nat)
    requires cfg.Valid() && Reachable(cfg, st) && s in st.sessions && st.sessions[s].hello.Some?
    ensures st.sessions[s].baseLen <= |st.sessions[s].hello.value.items|
    ensures st.sessions[s].hello.value.items <= PastOf(st.svc, st.sessions[s].filter.addr)
  {
    ReachableSession(cfg, st, s);
  }

  // A listener installed by a callback that sees the rest of its block leaves no event that is live but
  // not in the backlog.
  lemma LiveIsRecorded(cfg: Config, st: State, s: nat)
    requires cfg.Valid() && cfg.seesRest && Reachable(cfg, st) && s in st.sessions
    requires st.sessions[s].filter.want.Pubsub? && !st.sessions[s].phase.LookedUp?
    ensures SomeEach(cfg, st.history, st.sessions[s].filter)
  {
    ReachableOrigin(cfg, st);
    ListenedAfterRegistration(cfg, st.sessions[s], st.history);
  }

  // Between logs live delivery is the backlog since the Listen exactly when each notification since came
  // after a single registration of its manager, wherever block numbers rise or nothing is live but not in
  // the backlog. In the latter case live delivery never holds more than the backlog.
  lemma LiveAgainstBacklog(cfg: Config, st: State, s: nat)
    requires cfg.Valid() && Reachable(cfg, st) && !st.block.Dispatching?
    requires s in st.sessions && st.sessions[s].filter.want.Pubsub? && st.sessions[s].filter.until.None?
    requires !st.sessions[s].phase.LookedUp? && (st.strict || SomeEach(cfg, st.history, st.sessions[s].filter))
    ensures var sess := st.sessions[s];
            var b := PastOf(st.svc, sess.filter.addr);
            && sess.baseLen <= |b|
            && (b[sess.baseLen..] == Received(sess) <==> OneEach(cfg, st.history, sess.filter))
            && (SomeEach(cfg, st.history, sess.filter) ==> sess.baseLen + |Received(sess)| <= |b|)
  {
    var h, sess := st.history, st.sessions[s];
    var f := sess.filter;
    BaseLength(cfg, st, s);
    ReachableService(cfg, st);
    RecordedOrRising(cfg, st, s);
    BacklogIsLive(cfg, f, h);
    DeliveryComplete(cfg, st, s);
    BacklogGrows(cfg, h, f.since, f.addr);
    PrefixSplit(PastOf(Fold(cfg, h[..f.since]), f.addr), PastOf(st.svc, f.addr), Received(sess));
  }

  lemma RecordedOrRising(cfg: Config, st: State, s: nat)
    requires cfg.Valid() && Reachable(cfg, st) && s in st.sessions && st.sessions[s].filter.want.Pubsub?
    requires !st.sessions[s].phase.LookedUp? && (st.strict || SomeEach(cfg, st.history, st.sessions[s].filter))
    ensures SomeEach(cfg, st.history, st.sessions[s].filter) || (!cfg.seesRest && Rises(st.history))
  {
    ReachableOrigin(cfg, st);
    if cfg.seesRest {
      LiveIsRecorded(cfg, st, s);
    }
  }

  lemma PrefixSplit(base: seq<Item>, b: seq<Item>, live: seq<Item>)
    requires base <= b
    ensures b == base + live <==> b[|base|..] == live
  {
    assert b == base + b[|base|..];
  }

  // Gap-free hand-over: the snapshot followed by the live stream without its first |snapshot| - L
  // entries, L being the backlog's length at the Listen, is the whole backlog, and those entries are the
  // snapshot's last: exactly where each notification since the Listen came after a single registration.
  lemma HandoverRebuildsBacklog(cfg: Config, st: State, s: nat)
    requires cfg.Valid() && Reachable(cfg, st) && !st.block.Dispatching?
    requires s in st.sessions && st.sessions[s].filter.until.None? && st.sessions[s].hello.Some?
    requires st.sessions[s].filter.want.Pubsub?
    requires st.strict || SomeEach(cfg, st.history, st.sessions[s].filter)
    ensures var sess := st.sessions[s];
            && sess.baseLen <= |sess.hello.value.items|
            && (Rebuilds(sess.hello.value.items, sess.baseLen, Received(sess), PastOf(st.svc, sess.filter.addr)) <==>
                OneEach(cfg, st.history, sess.filter))
  {
    GreetedListens(cfg, st, s);
    var sess := st.sessions[s];
    LiveAgainstBacklog(cfg, st, s);
    SnapshotIsPrefix(cfg, st, s);
    SnapshotThenLive(PastOf(st.svc, sess.filter.addr), sess.baseLen, sess.hello.value.items, Received(sess));
  }

  // The live stream begins with the snapshot's entries from position from on, and goes on to make up b.
  predicate Rebuilds(snap: seq<Item>, from: nat, live: seq<Item>, b: seq<Item>)
    requires from <= |snap|
  {
    var overlap := |snap| - from;
    overlap <= |live| && live[..overlap] == snap[from..] && snap + live[overlap..] == b
  }

  // So after heartbeat k + 1 the subscriber has been sent every recorded event of a block up to the number
  // in heartbeat k: the j-th event of the backlog is the j-th of the first response, or the one at its
  // place in the heartbeats up to k + 1, or both.
  lemma SubscriberKnowsAll(cfg: Config, st: State, s: nat, k: nat, j: nat)
    requires cfg.Valid() && Reachable(cfg, st) && st.strict
    requires s in st.sessions && st.sessions[s].filter.until.None? && st.sessions[s].hello.Some?
    requires st.sessions[s].filter.want.Pubsub? && OneEach(cfg, st.history, st.sessions[s].filter)
    requires k + 1 < |st.sessions[s].sent| && j < |PastOf(st.svc, st.sessions[s].filter.addr)|
    requires NotAfter(PastOf(st.svc, st.sessions[s].filter.addr)[j], st.sessions[s].sent[k].num)
    ensures var sess := st.sessions[s];
            var it, snap := PastOf(st.svc, sess.filter.addr)[j], sess.hello.value.items;
            var beats := Concat(sess.sent[..k + 2]);
            && sess.baseLen <= |snap|
            && (j < |snap| ==> snap[j] == it)
            && (j >= sess.baseLen ==> j - sess.baseLen < |beats| && beats[j - sess.baseLen] == it)
  {
    SnapshotIsPrefix(cfg, st, s);
    GreetedListens(cfg, st, s);
    if j >= st.sessions[s].baseLen {
      BeforeCurrent(cfg, st, s, k, PastOf(st.svc, st.sessions[s].filter.addr)[j].blk);
      LiveCovers(cfg, st, s, j);
      OneHeartbeatLag(cfg, st, s, k, j - st.sessions[s].baseLen);
    }
  }

  // However often the event manager is registered, the subscriber lacks nothing that was recorded before its
  // Listen or dispatched since: a notification of a block up to heartbeat k's number is in the first
  // response after what was recorded before it, or in heartbeats up to k + 1 after what was live before it.
  lemma NothingLost(cfg: Config, st: State, s: nat, k: nat, i: nat)
    requires cfg.Valid() && Reachable(cfg, st) && st.strict && s in st.sessions && st.sessions[s].hello.Some?
    requires st.sessions[s].filter.want.Pubsub? && k + 1 < |st.sessions[s].sent|
    requires i < |st.history| && Notifies(cfg, st.sessions[s].filter.addr, st.history[i])
    requires st.sessions[s].filter.until.Some? ==> i < st.sessions[s].filter.until.value
    requires st.sessions[s].sent[k].num.Blk? && st.history[i].blk <= st.sessions[s].sent[k].num.n
    ensures var sess, before, e := st.sessions[s], st.history[..i], st.history[i];
            var f := sess.filter;
            if f.since <= i then
              HasAt(Concat(sess.sent[..k + 2]), |Stream(cfg, s, f, before, st.missed[..i])|, Event(cfg, e))
            else Registrations(cfg, before, f.addr, e.ord) > 0 ==>
              HasAt(sess.hello.value.items, |Replay(cfg, before, f.addr)|, Event(cfg, e))
  {
    var f, e := st.sessions[s].filter, st.history[i];
    if f.since <= i {
      GreetedListens(cfg, st, s);
      BaseLength(cfg, st, s);
      FirstTopic(cfg, e.log);
      assert Wanted(f, i, e.log) && Items(cfg, f.want, e) == [Event(cfg, e)];
      LagOfLog(cfg, st, s, k, i);
    } else if Registrations(cfg, st.history[..i], f.addr, e.ord) > 0 {
      SnapshotHas(cfg, st, s, i);
    }
  }

  // The first response has what was recorded before the Listen, each at its place in the backlog.
  lemma SnapshotHas(cfg: Config, st: State, s: nat, i: nat)
    requires cfg.Valid() && Reachable(cfg, st) && s in st.sessions && st.sessions[s].hello.Some?
    requires st.sessions[s].filter.want.Pubsub? && i < |st.history| && i < st.sessions[s].filter.since
    requires Notifies(cfg, st.sessions[s].filter.addr, st.history[i])
    requires Registrations(cfg, st.history[..i], st.sessions[s].filter.addr, st.history[i].ord) > 0
    ensures HasAt(st.sessions[s].hello.value.items, |Replay(cfg, st.history[..i], st.sessions[s].filter.addr)|,
                  Event(cfg, st.history[i]))
  {
    var f := st.sessions[s].filter;
    GreetedListens(cfg, st, s);
    BaseLength(cfg, st, s);
    SnapshotIsPrefix(cfg, st, s);
    BacklogOnlyGrew(cfg, st, s);
    ReplayedBefore(cfg, st.history, f.addr, f.since, i);
    PrefixHas(PastOf(Fold(cfg, st.history[..f.since]), f.addr), st.sessions[s].hello.value.items,
              PastOf(st.svc, f.addr), |Replay(cfg, st.history[..i], f.addr)|, Event(cfg, st.history[i]));
  }

  lemma ReplayedBefore(cfg: Config, h: seq<Entry>, mgr: Addr, n: nat, i: nat)
    requires cfg.Valid() && i < n <= |h| && Notifies(cfg, mgr, h[i]) && Registrations(cfg, h[..i], mgr, h[i].ord) > 0
    ensures HasAt(PastOf(Fold(cfg, h[..n]), mgr), |Replay(cfg, h[..i], mgr)|, Event(cfg, h[i]))
  {
    assert h[..n][..i] == h[..i];
    BacklogMeaning(cfg, h[..n], mgr);
    ReplayAt(cfg, h[..n], mgr, i);
  }

  lemma PrefixHas(base: seq<Item>, items: seq<Item>, b: seq<Item>, j: nat, it: Item)
    requires base <= b && items <= b && |base| <= |items| && HasAt(base, j, it)
    ensures HasAt(items, j, it)
  {}

  lemma BacklogOnlyGrew(cfg: Config, st: State, s: nat)
    requires cfg.Valid() && Reachable(cfg, st) && s in st.sessions && !st.sessions[s].phase.LookedUp?
    requires st.sessions[s].filter.since <= |st.history|
    ensures var f := st.sessions[s].filter; PastOf(Fold(cfg, st.history[..f.since]), f.addr) <= PastOf(st.svc, f.addr)
  {
    var h, f := st.history, st.sessions[s].filter;
    ReachableService(cfg, st);
    if st.block.Dispatching? {
      ListenedBefore(cfg, st, s);
      BacklogGrows(cfg, h[..|h| - 1], f.since, f.addr);
      assert h[..|h| - 1][..f.since] == h[..f.since];
      PartialGrows(cfg, Base(cfg, st), Current(st), st.block.todo, st.block.reg, f.addr);
    } else {
      BacklogGrows(cfg, h, f.since, f.addr);
    }
  }

  lemma PartialGrows(cfg: Config, base: ServiceState, e: Entry, todo: set<nat>, reg: Option<Registering>, mgr: Addr)
    requires |base.listeners| > 0
    ensures PastOf(base, mgr) <= PastOf(Partial(cfg, base, e, todo, reg), mgr)
  {}

  lemma {:induction false} ReplayAt(cfg: Config, h: seq<Entry>, mgr: Addr, i: nat)
    requires i < |h| && Notifies(cfg, mgr, h[i]) && Registrations(cfg, h[..i], mgr, h[i].ord) > 0
    ensures HasAt(Replay(cfg, h, mgr), |Replay(cfg, h[..i], mgr)|, Event(cfg, h[i]))
  {
    var n := |h| - 1;
    if i < n {
      assert h[..n][..i] == h[..i];
      ReplayAt(cfg, h[..n], mgr, i);
    }
  }

  lemma GreetedListens(cfg: Config, st: State, s: nat)
    requires cfg.Valid() && Reachable(cfg, st) && s in st.sessions && st.sessions[s].hello.Some?
    ensures !st.sessions[s].phase.LookedUp?
  {
    ReachableSession(cfg, st, s);
  }

  // An event of the backlog that is not of the log being dispatched is at its place in the live stream.
  lemma LiveCovers(cfg: Config, st: State, s: nat, j: nat)
    requires cfg.Valid() && Reachable(cfg, st)
    requires s in st.sessions && st.sessions[s].filter.until.None? && !st.sessions[s].phase.LookedUp?
    requires st.sessions[s].filter.want.Pubsub? && OneEach(cfg, st.history, st.sessions[s].filter)
    requires st.sessions[s].baseLen <= j < |PastOf(st.svc, st.sessions[s].filter.addr)|
    requires st.block.Dispatching? ==> PastOf(st.svc, st.sessions[s].filter.addr)[j].blk < Current(st).blk
    ensures j - st.sessions[s].baseLen < |Received(st.sessions[s])|
    ensures Received(st.sessions[s])[j - st.sessions[s].baseLen] == PastOf(st.svc, st.sessions[s].filter.addr)[j]
  {
    var sess := st.sessions[s];
    if st.block.Dispatching? {
      LiveCoversWithin(cfg, st, s, j);
    } else {
      OneIsSome(cfg, st.history, sess.filter);
      LiveAgainstBacklog(cfg, st, s);
      assert PastOf(st.svc, sess.filter.addr)[j] == PastOf(st.svc, sess.filter.addr)[sess.baseLen..][j - sess.baseLen];
    }
  }

  lemma LiveCoversWithin(cfg: Config, st: State, s: nat, j: nat)
    requires cfg.Valid() && Reachable(cfg, st) && st.block.Dispatching?
    requires s in st.sessions && st.sessions[s].filter.until.None? && !st.sessions[s].phase.LookedUp?
    requires st.sessions[s].filter.want.Pubsub? && OneEach(cfg, st.history, st.sessions[s].filter)
    requires st.sessions[s].baseLen <= j < |PastOf(st.svc, st.sessions[s].filter.addr)|
    requires PastOf(st.svc, st.sessions[s].filter.addr)[j].blk < Current(st).blk
    ensures j - st.sessions[s].baseLen < |Received(st.sessions[s])|
    ensures Received(st.sessions[s])[j - st.sessions[s].baseLen] == PastOf(st.svc, st.sessions[s].filter.addr)[j]
  {
    SidesWithin(cfg, st, s);
    var h, f := st.history, st.sessions[s].filter;
    EventOfBlock(cfg, f.addr, Current(st));
    CoversWithin(PastOf(Fold(cfg, h[..f.since]), f.addr), Ideal(cfg, f, h[..|h| - 1]), PastOf(st.svc, f.addr),
                 Received(st.sessions[s]), EventOf(cfg, f.addr, Current(st)), j);
  }

  // The event of one log for an event manager's listeners, if it has one.
  function EventOf(cfg: Config, mgr: Addr, e: Entry): seq<Item> {
    if Notifies(cfg, mgr, e) then [Event(cfg, e)] else []
  }

  lemma EventOfBlock(cfg: Config, mgr: Addr, e: Entry)
    ensures forall i | 0 <= i < |EventOf(cfg, mgr, e)| :: EventOf(cfg, mgr, e)[i].blk == e.blk
  {}

  // Backlog b and live stream each have what came before, and perhaps now as well.
  predicate TwoSides(base: seq<Item>, ideal: seq<Item>, b: seq<Item>, live: seq<Item>, now: seq<Item>) {
    (b == base + ideal || b == base + ideal + now) && (live == ideal || live == ideal + now)
  }

  lemma CoversWithin(base: seq<Item>, ideal: seq<Item>, b: seq<Item>, live: seq<Item>, now: seq<Item>, j: nat)
    requires TwoSides(base, ideal, b, live, now) && |base| <= j < |b|
    requires forall i | 0 <= i < |now| :: b[j].blk < now[i].blk
    ensures j - |base| < |live| && live[j - |base|] == b[j]
  {
    NowOrBefore(base + ideal, b, now, j);
  }

  lemma NowOrBefore(before: seq<Item>, b: seq<Item>, now: seq<Item>, j: nat)
    requires (b == before || b == before + now) && j < |b|
    ensures if j < |before| then b[j] == before[j] else j - |before| < |now| && b[j] == now[j - |before|]
  {}

  lemma BaseLength(cfg: Config, st: State, s: nat)
    requires cfg.Valid() && Reachable(cfg, st)
    requires s in st.sessions && st.sessions[s].filter.want.Pubsub? && !st.sessions[s].phase.LookedUp?
    ensures ConservationInv(cfg, st) && Conserved(cfg, s, st.sessions[s], st.history, st.missed)
    ensures st.sessions[s].filter.since <= |st.history| && PubsubFilter(cfg, st.sessions[s].filter)
    ensures var f := st.sessions[s].filter;
            st.sessions[s].baseLen == |PastOf(Fold(cfg, st.history[..f.since]), f.addr)|
  {
    ReachableConservation(cfg, st);
    ReachableSession(cfg, st, s);
  }

  // Where the event manager is never registered twice, each of its notifications is recorded once.
  lemma FreshManagerHandsOver(cfg: Config, st: State, s: nat)
    requires cfg.Valid() && cfg.seesRest && Reachable(cfg, st) && s in st.sessions
    requires st.sessions[s].filter.want.Pubsub? && !st.sessions[s].phase.LookedUp?
    requires forall ord: nat :: Registrations(cfg, st.history, st.sessions[s].filter.addr, ord) <= 1
    ensures OneEach(cfg, st.history, st.sessions[s].filter)
  {
    var h, f := st.history, st.sessions[s].filter;
    LiveIsRecorded(cfg, st, s);
    forall i | f.since <= i < |h| && Notifies(cfg, f.addr, h[i])
      ensures Registrations(cfg, h[..i], f.addr, h[i].ord) == 1
    {
      RegistrationsGrow(cfg, h, i, f.addr, h[i].ord);
    }
  }

  lemma SnapshotThenLive(b: seq<Item>, from: nat, snap: seq<Item>, live: seq<Item>)
    requires from <= |snap| && snap <= b
    ensures Rebuilds(snap, from, live, b) <==> b[from..] == live
  {
    var overlap := |snap| - from;
    if Rebuilds(snap, from, live, b) {
      assert b[from..] == snap[from..] + live[overlap..];
    }
  }

  // While a log is dispatched the two sides differ by at most that log's event.
  lemma HandoverWithinOneLog(cfg: Config, st: State, s: nat)
    requires cfg.Valid() && Reachable(cfg, st) && st.block.Dispatching?
    requires s in st.sessions && st.sessions[s].filter.until.None? && !st.sessions[s].phase.LookedUp?
    requires st.sessions[s].filter.want.Pubsub? && OneEach(cfg, st.history, st.sessions[s].filter)
    ensures st.sessions[s].baseLen <= |PastOf(st.svc, st.sessions[s].filter.addr)|
    ensures var sess := st.sessions[s];
            var live, b := Received(sess), PastOf(st.svc, sess.filter.addr)[sess.baseLen..];
            var now := EventOf(cfg, sess.filter.addr, Current(st));
            live == b || live == b + now || b == live + now
  {
    SidesWithin(cfg, st, s);
    var h, f := st.history, st.sessions[s].filter;
    WithinOne(PastOf(Fold(cfg, h[..f.since]), f.addr), Ideal(cfg, f, h[..|h| - 1]), PastOf(st.svc, f.addr),
              Received(st.sessions[s]), EventOf(cfg, f.addr, Current(st)));
  }

  lemma SidesWithin(cfg: Config, st: State, s: nat)
    requires cfg.Valid() && Reachable(cfg, st) && st.block.Dispatching?
    requires s in st.sessions && st.sessions[s].filter.until.None? && !st.sessions[s].phase.LookedUp?
    requires st.sessions[s].filter.want.Pubsub? && OneEach(cfg, st.history, st.sessions[s].filter)
    ensures st.sessions[s].filter.since < |st.history|
    ensures var f, h := st.sessions[s].filter, st.history;
            var base, ideal := PastOf(Fold(cfg, h[..f.since]), f.addr), Ideal(cfg, f, h[..|h| - 1]);
            && st.sessions[s].baseLen == |base|
            && TwoSides(base, ideal, PastOf(st.svc, f.addr), Received(st.sessions[s]),
                        EventOf(cfg, f.addr, Current(st)))
  {
    ListenedBefore(cfg, st, s);
    BaseLength(cfg, st, s);
    LiveWithin(cfg, st, s);
    RecordedWithin(cfg, st, st.sessions[s].filter);
  }

  lemma RecordedWithin(cfg: Config, st: State, f: Filter)
    requires cfg.Valid() && Reachable(cfg, st) && st.block.Dispatching?
    requires PubsubFilter(cfg, f) && f.until.None? && f.since < |st.history| && OneEach(cfg, st.history, f)
    ensures var e, before := Current(st), st.history[..|st.history| - 1];
            var recorded := PastOf(Fold(cfg, st.history[..f.since]), f.addr) + Ideal(cfg, f, before);
            PastOf(st.svc, f.addr) == recorded
            || (Notifies(cfg, f.addr, e) && PastOf(st.svc, f.addr) == recorded + [Event(cfg, e)])
  {
    var h, e := st.history, Current(st);
    var before := h[..|h| - 1];
    assert before + [e] == h;
    RecordedBefore(cfg, before, e, f);
    StoredWithin(cfg, st, f.addr);
  }

  lemma RecordedBefore(cfg: Config, before: seq<Entry>, e: Entry, f: Filter)
    requires cfg.Valid() && PubsubFilter(cfg, f) && f.until.None? && f.since <= |before|
    requires OneEach(cfg, before + [e], f)
    ensures Notifies(cfg, f.addr, e) ==> Registrations(cfg, before, f.addr, e.ord) == 1
    ensures PastOf(Fold(cfg, before), f.addr) ==
            PastOf(Fold(cfg, (before + [e])[..f.since]), f.addr) + Ideal(cfg, f, before)
  {
    assert before[..f.since] == (before + [e])[..f.since];
    EachPrefix(cfg, before, f, e);
    OneIsSome(cfg, before, f);
    BacklogIsLive(cfg, f, before);
  }

  lemma StoredWithin(cfg: Config, st: State, mgr: Addr)
    requires cfg.Valid() && Reachable(cfg, st) && st.block.Dispatching?
    requires Notifies(cfg, mgr, Current(st)) ==>
               Registrations(cfg, st.history[..|st.history| - 1], mgr, Current(st).ord) == 1
    ensures var b, e := PastOf(Fold(cfg, st.history[..|st.history| - 1]), mgr), Current(st);
            PastOf(st.svc, mgr) == b || (Notifies(cfg, mgr, e) && PastOf(st.svc, mgr) == b + [Event(cfg, e)])
  {
    ReachableService(cfg, st);
    BacklogWithin(cfg, st.history[..|st.history| - 1], Current(st), st.block.todo, st.block.reg, mgr);
  }

  lemma ListenedBefore(cfg: Config, st: State, s: nat)
    requires cfg.Valid() && Reachable(cfg, st) && st.block.Dispatching? && s in st.sessions
    ensures Began(st.sessions[s], st.history)
  {
    ReachableOrigin(cfg, st);
  }

  lemma OneIsSome(cfg: Config, h: seq<Entry>, f: Filter)
    requires OneEach(cfg, h, f)
    ensures SomeEach(cfg, h, f)
  {}

  lemma LiveWithin(cfg: Config, st: State, s: nat)
    requires cfg.Valid() && ConservationInv(cfg, st) && st.block.Dispatching? && s in st.sessions
    requires Conserved(cfg, s, st.sessions[s], st.history, st.missed) && !st.sessions[s].phase.LookedUp?
    requires PubsubFilter(cfg, st.sessions[s].filter) && st.sessions[s].filter.until.None?
    requires st.sessions[s].filter.since < |st.history|
    ensures var live, e, f := Received(st.sessions[s]), Current(st), st.sessions[s].filter;
            var ideal := Ideal(cfg, f, st.history[..|st.history| - 1]);
            live == ideal || (Notifies(cfg, f.addr, e) && live == ideal + [Event(cfg, e)])
  {
    LiveIsComplete(cfg, st, s, |st.history| - 1);
    PubsubItems(cfg, st.sessions[s].filter, |st.history| - 1, Current(st));
  }

  lemma BacklogWithin(cfg: Config, before: seq<Entry>, e: Entry, todo: set<nat>, reg: Option<Registering>, mgr: Addr)
    requires cfg.Valid()
    requires Notifies(cfg, mgr, e) ==> Registrations(cfg, before, mgr, e.ord) == 1
    ensures var b, p := PastOf(Fold(cfg, before), mgr), PastOf(Partial(cfg, Fold(cfg, before), e, todo, reg), mgr);
            p == b || (Notifies(cfg, mgr, e) && p == b + [Event(cfg, e)])
  {
    if Notifies(cfg, mgr, e) {
      FoldShape(cfg, before);
      PastListenersCount(cfg, before, mgr, e.ord);
      PartialNotify(cfg, Fold(cfg, before), e, todo, reg);
    } else {
      PartialQuiet(cfg, Fold(cfg, before), e, todo, reg, mgr);
    }
  }

  lemma PartialNotify(cfg: Config, base: ServiceState, e: Entry, todo: set<nat>, reg: Option<Registering>)
    requires cfg.Valid() && |base.listeners| > 0 && Shape(cfg, base) && Notifies(cfg, e.log.addr, e)
    requires |PastDue(base.listeners, e.log.addr, e.ord)| == 1
    ensures var b, p := PastOf(base, e.log.addr), PastOf(Partial(cfg, base, e, todo, reg), e.log.addr);
            p == b || p == b + [Event(cfg, e)]
  {
    DueByKind(cfg, base, e.log, e.ord);
    var due, it := Due(base.listeners, e.log, e.ord), Event(cfg, e);
    var n := |due - todo|;
    SubsetSize(due - todo, due);
    assert Copies(it, n) == [] || Copies(it, n) == [it];
  }

  lemma SubsetSize(a: set<nat>, b: set<nat>)
    requires a <= b
    ensures |a| <= |b|
  {
    assert b == a + (b - a);
  }

  lemma PartialQuiet(cfg: Config, base: ServiceState, e: Entry, todo: set<nat>, reg: Option<Registering>, mgr: Addr)
    requires |base.listeners| > 0 && !Notifies(cfg, mgr, e)
    ensures PastOf(Partial(cfg, base, e, todo, reg), mgr) == PastOf(base, mgr)
  {}

  lemma WithinOne(base: seq<Item>, ideal: seq<Item>, b: seq<Item>, live: seq<Item>, now: seq<Item>)
    requires TwoSides(base, ideal, b, live, now)
    ensures |base| <= |b| && (live == b[|base|..] || live == b[|base|..] + now || b[|base|..] == live + now)
  {
    assert (base + ideal)[|base|..] == ideal && (base + ideal + now)[|base|..] == ideal + now;
  }
}

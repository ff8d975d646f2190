/** What a subscriber is sent and when: the response and the heartbeats of a session, each message traced to
    the steps that read its contents, and what follows a response or a heartbeat that fails. */
module Messages {
  import opened Eth
  import opened Service
  import opened Sessions
  import opened Pusher
  import opened System
  import opened Runs
  import opened Guarantees

  // ----- who waits for whom -----

  // Neither the queue nor the socket nor the backlog waits for the block under way: from its phase a session
  // can go on at once. Only reading the number waits for the block's end, only Listen and Cancel for that of
  // the log. Without an emitter, or once cancelled, a session makes no step.
  lemma WhoWaits(st: State, s: nat, ok: bool)
    requires s in st.sessions
    ensures var p := st.sessions[s].phase;
            && (p.LookedUp? ==> (ClientEnabled(st, s, Listen) <==> !st.block.Dispatching?))
            && (p.Responding? && p.past.None? ==> ClientEnabled(st, s, ReadPast))
            && (p.Responding? && p.num.None? ==> (ClientEnabled(st, s, ReadHelloNumber) <==> st.block.Idle?))
            && (p.Responding? && p.num.Some? && p.past.Some? ==> ClientEnabled(st, s, Respond(ok)))
            && (p.Waiting? ==> ClientEnabled(st, s, DrainQueue))
            && (p.Drained? ==> (ClientEnabled(st, s, ReadNumber) <==> st.block.Idle?))
            && (p.Numbered? ==> ClientEnabled(st, s, Send))
            && (p.Drained? || p.Numbered? ==> ClientEnabled(st, s, Fail))
            && (p.Failing? ==> (ClientEnabled(st, s, CancelListener) <==> !st.block.Dispatching?))
            && (p.Stuck? || p.Cancelled? ==> forall step :: !ClientEnabled(st, s, step))
  {}

  // A subscription begins with a publisher that has an event manager, at any time, or between logs with a
  // request for receipts.
  lemma WhoMayBegin(st: State, s: nat, pub: Bytes, addr: Addr, topics: seq<Topic>)
    ensures ClientEnabled(st, s, Lookup(pub)) <==>
            s !in st.sessions && pub in st.svc.mgrOf && st.svc.mgrOf[pub] != ZERO_ADDR
    ensures ClientEnabled(st, s, SubscribeReceipts(addr, topics)) <==> s !in st.sessions && !st.block.Dispatching?
  {}

  // Another thread touches a session only by adding to its queue.
  lemma OthersKeep(cfg: Config, st: State, a: Action, s: nat)
    requires Enabled(cfg, st, a) && s in Do(cfg, st, a).sessions && !(a.Client? && a.s == s)
    ensures s in st.sessions
    ensures Do(cfg, st, a).sessions[s].(pending := st.sessions[s].pending) == st.sessions[s]
  {
    if a.Dispatch? {
      DispatchFrame(cfg, st, a.d);
    }
  }

  // ----- what a new listener hears -----

  // A receipt subscription is from then on due for exactly the logs of the requested contract whose first
  // topics are the requested ones.
  lemma ReceiptListener(cfg: Config, st: State, s: nat, addr: Addr, topics: seq<Topic>, log: Log)
    requires ClientEnabled(st, s, SubscribeReceipts(addr, topics))
    ensures s in DueSessions(SetSession(cfg, st, s, SubscribeReceipts(addr, topics)).sessions, log) <==>
            && log.addr == addr && |topics| <= |log.topics|
            && (forall k | 0 <= k < |topics| :: log.topics[k] == topics[k])
  {
    if |topics| <= |log.topics| && forall k | 0 <= k < |topics| :: log.topics[k] == topics[k] {
      assert topics == log.topics[..|topics|];
    }
  }

  // A pub/sub subscription is due for exactly the notify logs of the event manager that it looked up.
  lemma EventListener(cfg: Config, st: State, s: nat, log: Log)
    requires cfg.Valid() && Reachable(cfg, st) && ClientEnabled(st, s, Listen)
    requires st.sessions[s].filter.want.Pubsub?
    ensures s in DueSessions(SetSession(cfg, st, s, Listen).sessions, log) <==>
            log.addr == st.sessions[s].filter.addr && |log.topics| > 0 && log.topics[0] == cfg.notifyTopic
  {
    ReachableConservation(cfg, st);
    OneTopic(cfg.notifyTopic, log.topics);
  }

  lemma OneTopic(t: Topic, topics: seq<Topic>)
    ensures [t] <= topics <==> |topics| > 0 && topics[0] == t
  {}

  // ----- the phases of a session -----

  // No heartbeat before the response; nothing is sent without either.
  predicate PhaseFits(sess: Session) {
    && (sess.phase.LookedUp? || sess.phase.Responding? || sess.phase.Stuck? ==> sess.sent == [] && sess.hello.None?)
    && (sess.filter.want.Pubsub? ==>
          sess.phase.LookedUp? || sess.phase.Responding? || sess.phase.Stuck? || sess.hello.Some?)
  }

  lemma PhaseFitsOwn(cfg: Config, st: State, s: nat, step: ClientStep)
    requires ClientEnabled(st, s, step) && (s in st.sessions ==> PhaseFits(st.sessions[s]))
    ensures PhaseFits(ClientDo(cfg, st, s, step))
  {}

  lemma {:induction false} PhaseFitsRun(cfg: Config, start: BlockNumber, acts: seq<Action>, s: nat)
    requires Exec(cfg, start, acts).Some? && s in Exec(cfg, start, acts).value.sessions
    ensures PhaseFits(Exec(cfg, start, acts).value.sessions[s])
  {
    if acts != [] {
      var st, a := Exec(cfg, start, acts[..|acts| - 1]).value, acts[|acts| - 1];
      if s in st.sessions {
        PhaseFitsRun(cfg, start, acts[..|acts| - 1], s);
      }
      if a.Client? && a.s == s {
        PhaseFitsOwn(cfg, st, s, a.step);
      } else {
        OthersKeep(cfg, st, a, s);
      }
    }
  }

  // A pub/sub session has a heartbeat, sent or about to begin, only after its response was sent.
  lemma ResponseFirst(cfg: Config, st: State, s: nat)
    requires Reachable(cfg, st) && s in st.sessions && st.sessions[s].filter.want.Pubsub?
    requires st.sessions[s].sent != [] || ClientEnabled(st, s, DrainQueue)
    ensures st.sessions[s].hello.Some?
  {
    var start, acts :| Exec(cfg, start, acts) == Some(st);
    PhaseFitsRun(cfg, start, acts, s);
  }

  // ----- a heartbeat that succeeds -----

  // The session's own three steps.
  function Beat(s: nat): seq<Action> {
    [Client(s, DrainQueue), Client(s, ReadNumber), Client(s, Send)]
  }

  // Between blocks they send the whole queue with the last validated number, and nothing else changes.
  lemma Heartbeat(cfg: Config, st: State, s: nat)
    requires Wf(st) && st.block.Idle? && s in st.sessions && st.sessions[s].phase.Waiting?
    ensures var sess := st.sessions[s];
            var next := sess.(sent := sess.sent + [Msg(st.last, sess.pending, |Received(sess)|)], pending := []);
            ExecFrom(cfg, st, Beat(s)) == Some(st.(sessions := st.sessions[s := next]))
  {
    var sess := st.sessions[s];
    HeartbeatConserves(sess, st.last, 0);
    var a := SetSession(cfg, st, s, DrainQueue);
    var b := SetSession(cfg, a, s, ReadNumber);
    var c := SetSession(cfg, b, s, Send);
    ThreeSteps(cfg, st, Client(s, DrainQueue), Client(s, ReadNumber), Client(s, Send));
    assert c.sessions == st.sessions[s := c.sessions[s]];
  }

  lemma ThreeSteps(cfg: Config, st: State, a: Action, b: Action, c: Action)
    requires Wf(st) && Enabled(cfg, st, a) && Enabled(cfg, Do(cfg, st, a), b)
    requires Enabled(cfg, Do(cfg, Do(cfg, st, a), b), c)
    ensures ExecFrom(cfg, st, [a, b, c]) == Some(Do(cfg, Do(cfg, Do(cfg, st, a), b), c))
  {
    assert [a][..0] == [] && [a, b][..1] == [a] && [a, b, c][..2] == [a, b];
    assert ExecFrom(cfg, st, [a]) == Some(Do(cfg, st, a));
    assert ExecFrom(cfg, st, [a, b]) == Some(Do(cfg, Do(cfg, st, a), b));
  }

  // ----- a response that is sent, and one that is not -----

  // After the response the emitter is there: the next heartbeat sends what the queue has collected.
  lemma ResponseThenHeartbeat(cfg: Config, st: State, s: nat)
    requires Reachable(cfg, st) && Wf(st) && st.block.Idle? && ClientEnabled(st, s, Respond(true))
    ensures var t := SetSession(cfg, st, s, Respond(true));
            var u := ExecFrom(cfg, t, Beat(s));
            && u.Some? && s in u.value.sessions
            && u.value.sessions[s].hello.Some?
            && u.value.sessions[s].hello.value.num == st.sessions[s].phase.num.value.num
            && u.value.sessions[s].hello.value.items == st.sessions[s].phase.past.value
            && |u.value.sessions[s].sent| == 1 && u.value.sessions[s].sent[0].num == st.last
            && u.value.sessions[s].sent[0].items == st.sessions[s].pending && u.value.sessions[s].pending == []
  {
    var start, acts :| Exec(cfg, start, acts) == Some(st);
    PhaseFitsRun(cfg, start, acts, s);
    Heartbeat(cfg, SetSession(cfg, st, s, Respond(true)), s);
  }

  // If the response is not sent, the listener stays and its queue is never emptied: the session is due for
  // the same logs for ever, and nothing is ever sent to the subscriber.
  lemma NoEmitter(cfg: Config, st: State, s: nat, acts: seq<Action>)
    requires Reachable(cfg, st) && Wf(st) && ClientEnabled(st, s, Respond(false))
    requires ExecFrom(cfg, SetSession(cfg, st, s, Respond(false)), acts).Some?
    ensures var u := ExecFrom(cfg, SetSession(cfg, st, s, Respond(false)), acts).value;
            && s in u.sessions && u.sessions[s].sent == [] && u.sessions[s].hello.None?
            && Listening(u.sessions[s]) && u.sessions[s].filter == st.sessions[s].filter
            && forall step :: !ClientEnabled(u, s, step)
  {
    var start, run :| Exec(cfg, start, run) == Some(st);
    PhaseFitsRun(cfg, start, run, s);
    StuckForGood(cfg, SetSession(cfg, st, s, Respond(false)), s, acts);
  }

  lemma {:induction false} StuckForGood(cfg: Config, st: State, s: nat, acts: seq<Action>)
    requires Wf(st) && s in st.sessions && st.sessions[s].phase.Stuck? && ExecFrom(cfg, st, acts).Some?
    ensures var u := ExecFrom(cfg, st, acts).value;
            s in u.sessions && u.sessions[s].(pending := st.sessions[s].pending) == st.sessions[s]
  {
    if acts != [] {
      var u := ExecFrom(cfg, st, acts[..|acts| - 1]).value;
      StuckForGood(cfg, st, s, acts[..|acts| - 1]);
      SessionsStay(cfg, u, acts[|acts| - 1], s);
      OthersKeep(cfg, u, acts[|acts| - 1], s);
    }
  }

  lemma SessionsStay(cfg: Config, st: State, a: Action, s: nat)
    requires Enabled(cfg, st, a) && s in st.sessions
    ensures s in Do(cfg, st, a).sessions
  {
    if a.Dispatch? {
      DispatchFrame(cfg, st, a.d);
    }
  }

  // ----- a heartbeat that fails -----

  // A heartbeat that fails after its drain, with the Cancel: nothing is sent, the session has what it had,
  // and is due for no log; nothing else changes.
  lemma FailedHeartbeat(cfg: Config, st: State, s: nat)
    requires Wf(st) && !st.block.Dispatching? && s in st.sessions && st.sessions[s].phase.Waiting?
    ensures var u := ExecFrom(cfg, st, [Client(s, DrainQueue), Client(s, Fail), Client(s, CancelListener)]);
            && u.Some? && s in u.value.sessions
            && u.value == st.(sessions := st.sessions[s := u.value.sessions[s]])
            && u.value.sessions[s].filter == st.sessions[s].filter.(until := Some(|st.history|))
            && u.value.sessions[s].sent == st.sessions[s].sent
            && Received(u.value.sessions[s]) == Received(st.sessions[s])
            && forall log: Log :: DueSessions(u.value.sessions, log) == DueSessions(st.sessions, log) - {s}
  {
    var a := SetSession(cfg, st, s, DrainQueue);
    var b := SetSession(cfg, a, s, Fail);
    var c := SetSession(cfg, b, s, CancelListener);
    HeartbeatConserves(st.sessions[s], st.last, |st.history|);
    HeartbeatConserves(a.sessions[s], st.last, |st.history|);
    HeartbeatConserves(b.sessions[s], st.last, |st.history|);
    ThreeSteps(cfg, st, Client(s, DrainQueue), Client(s, Fail), Client(s, CancelListener));
    assert c.sessions == st.sessions[s := c.sessions[s]];
  }

  // Whatever happens after the Cancel, the session has what it had, and it is due for no log.
  lemma {:induction false} AfterCancel(cfg: Config, st: State, s: nat, acts: seq<Action>)
    requires cfg.Valid() && Reachable(cfg, st) && Wf(st) && ClientEnabled(st, s, CancelListener)
    requires ExecFrom(cfg, SetSession(cfg, st, s, CancelListener), acts).Some?
    ensures var u := ExecFrom(cfg, SetSession(cfg, st, s, CancelListener), acts).value;
            && s in u.sessions && u.sessions[s].sent == st.sessions[s].sent
            && Received(u.sessions[s]) == Received(st.sessions[s])
            && |st.history| <= |u.history|
            && (forall i | |st.history| <= i < |u.history| :: s !in u.missed[i])
            && (forall log: Log :: s !in DueSessions(u.sessions, log))
  {
    var t := SetSession(cfg, st, s, CancelListener);
    ReachableStep(cfg, st, Client(s, CancelListener));
    CancelledForGood(cfg, t, s, acts);
  }

  lemma {:induction false} CancelledForGood(cfg: Config, st: State, s: nat, acts: seq<Action>)
    requires cfg.Valid() && Reachable(cfg, st) && Wf(st) && s in st.sessions && st.sessions[s].phase.Cancelled?
    requires !st.block.Dispatching? && ExecFrom(cfg, st, acts).Some?
    ensures var u := ExecFrom(cfg, st, acts).value;
            && s in u.sessions && u.sessions[s] == st.sessions[s] && |st.history| <= |u.history|
            && forall i | |st.history| <= i < |u.history| :: s !in u.missed[i]
  {
    if acts != [] {
      var before := acts[..|acts| - 1];
      CancelledForGood(cfg, st, s, before);
      ReachableRun(cfg, st, before);
      CancelledIsFinal(cfg, ExecFrom(cfg, st, before).value, acts[|acts| - 1], s);
      NotOwed(cfg, ExecFrom(cfg, st, before).value, acts[|acts| - 1], s, |st.history|);
    }
  }

  lemma NotOwed(cfg: Config, st: State, a: Action, s: nat, n: nat)
    requires Wf(st) && Enabled(cfg, st, a) && s in st.sessions && !Listening(st.sessions[s]) && n <= |st.history|
    requires forall i | n <= i < |st.history| :: s !in st.missed[i]
    ensures n <= |Do(cfg, st, a).history| && Wf(Do(cfg, st, a))
    ensures forall i | n <= i < |Do(cfg, st, a).history| :: s !in Do(cfg, st, a).missed[i]
  {
    DoKeepsWf(cfg, st, a);
    if a.Dispatch? {
      DispatchFrame(cfg, st, a.d);
    }
  }

  // ----- where the contents of a message come from -----

  // Step i of the run is this step of session s.
  predicate StepAt(cfg: Config, start: BlockNumber, acts: seq<Action>, s: nat, step: ClientStep, i: nat) {
    i < |acts| && acts[i] == Client(s, step) && Exec(cfg, start, acts[..i]).Some? &&
    s in Exec(cfg, start, acts[..i]).value.sessions
  }

  // The state in which step i was made.
  function At(cfg: Config, start: BlockNumber, acts: seq<Action>, i: nat): State
    requires i < |acts| && Exec(cfg, start, acts[..i]).Some?
  {
    Exec(cfg, start, acts[..i]).value
  }

  lemma StepStays(cfg: Config, start: BlockNumber, acts: seq<Action>, s: nat, step: ClientStep, i: nat)
    requires acts != [] && StepAt(cfg, start, acts[..|acts| - 1], s, step, i)
    ensures StepAt(cfg, start, acts, s, step, i) && acts[..|acts| - 1][..i] == acts[..i]
  {
    assert acts[..|acts| - 1][..i] == acts[..i];
  }

  // A batch in flight is the whole queue at the time of the drain.
  lemma {:induction false} BatchOrigin(cfg: Config, start: BlockNumber, acts: seq<Action>, s: nat) returns (j: nat)
    requires Exec(cfg, start, acts).Some? && s in Exec(cfg, start, acts).value.sessions
    requires Exec(cfg, start, acts).value.sessions[s].phase.Drained?
    ensures StepAt(cfg, start, acts, s, DrainQueue, j)
    ensures At(cfg, start, acts, j).sessions[s].pending == Exec(cfg, start, acts).value.sessions[s].phase.batch
  {
    var n := |acts| - 1;
    if acts[n] == Client(s, DrainQueue) {
      j := n;
    } else {
      OwnPhase(cfg, Exec(cfg, start, acts[..n]).value, acts[n], s);
      j := BatchOrigin(cfg, start, acts[..n], s);
      StepStays(cfg, start, acts, s, DrainQueue, j);
    }
  }

  // Which own step a phase comes from; any other action leaves it and the sent messages alone.
  lemma OwnPhase(cfg: Config, st: State, a: Action, s: nat)
    requires Enabled(cfg, st, a) && s in Do(cfg, st, a).sessions
    ensures var next := Do(cfg, st, a).sessions[s];
            && (next.phase.Drained? && a != Client(s, DrainQueue) ==> Same(st, s, next))
            && (next.phase.Numbered? && a != Client(s, ReadNumber) ==> Same(st, s, next))
            && (a != Client(s, Send) ==>
                  next.sent == [] || (s in st.sessions && next.sent == st.sessions[s].sent))
  {
    if !(a.Client? && a.s == s) {
      OthersKeep(cfg, st, a, s);
    }
  }

  lemma OwnHello(cfg: Config, st: State, a: Action, s: nat)
    requires Enabled(cfg, st, a) && s in Do(cfg, st, a).sessions && (s in st.sessions ==> PhaseFits(st.sessions[s]))
    requires Do(cfg, st, a).sessions[s].hello.Some? && a != Client(s, Respond(true))
    ensures SameHello(st, s, Do(cfg, st, a).sessions[s])
  {
    if !(a.Client? && a.s == s) {
      OthersKeep(cfg, st, a, s);
    }
  }

  predicate Same(st: State, s: nat, next: Session) {
    s in st.sessions && next.phase == st.sessions[s].phase
  }

  predicate SameHello(st: State, s: nat, next: Session) {
    s in st.sessions && next.hello == st.sessions[s].hello && next.numberLast == st.sessions[s].numberLast
    && next.filter.addr == st.sessions[s].filter.addr
  }

  // The number beside it is the last validated one at a later step, while no block was under way.
  lemma {:induction false} NumberOrigin(cfg: Config, start: BlockNumber, acts: seq<Action>, s: nat)
      returns (j: nat, i: nat)
    requires Exec(cfg, start, acts).Some? && s in Exec(cfg, start, acts).value.sessions
    requires Exec(cfg, start, acts).value.sessions[s].phase.Numbered?
    ensures j < i && StepAt(cfg, start, acts, s, DrainQueue, j) && StepAt(cfg, start, acts, s, ReadNumber, i)
    ensures var p := Exec(cfg, start, acts).value.sessions[s].phase;
            && At(cfg, start, acts, j).sessions[s].pending == p.batch
            && At(cfg, start, acts, i).last == p.read.num && At(cfg, start, acts, i).block.Idle?
  {
    var n := |acts| - 1;
    if acts[n] == Client(s, ReadNumber) {
      i := n;
      j := BatchOrigin(cfg, start, acts[..n], s);
    } else {
      OwnPhase(cfg, Exec(cfg, start, acts[..n]).value, acts[n], s);
      j, i := NumberOrigin(cfg, start, acts[..n], s);
      StepStays(cfg, start, acts, s, ReadNumber, i);
    }
    StepStays(cfg, start, acts, s, DrainQueue, j);
  }

  // Every heartbeat that was sent holds the whole queue as it was at its drain, with the number that was the
  // last validated one when it was read, after the drain and between blocks.
  lemma {:induction false} HeartbeatOrigin(cfg: Config, start: BlockNumber, acts: seq<Action>, s: nat, k: nat)
      returns (j: nat, i: nat)
    requires Exec(cfg, start, acts).Some? && s in Exec(cfg, start, acts).value.sessions
    requires k < |Exec(cfg, start, acts).value.sessions[s].sent|
    ensures j < i && StepAt(cfg, start, acts, s, DrainQueue, j) && StepAt(cfg, start, acts, s, ReadNumber, i)
    ensures var m := Exec(cfg, start, acts).value.sessions[s].sent[k];
            && At(cfg, start, acts, j).sessions[s].pending == m.items
            && At(cfg, start, acts, i).last == m.num && At(cfg, start, acts, i).block.Idle?
  {
    var n := |acts| - 1;
    var st := Exec(cfg, start, acts[..n]).value;
    OwnPhase(cfg, st, acts[n], s);
    if acts[n] == Client(s, Send) && k == |st.sessions[s].sent| {
      j, i := NumberOrigin(cfg, start, acts[..n], s);
    } else {
      j, i := HeartbeatOrigin(cfg, start, acts[..n], s, k);
    }
    StepStays(cfg, start, acts, s, DrainQueue, j);
    StepStays(cfg, start, acts, s, ReadNumber, i);
  }

  lemma ReadsStep(cfg: Config, st: State, a: Action, s: nat)
    requires Enabled(cfg, st, a) && s in Do(cfg, st, a).sessions && a != Client(s, Listen)
    requires Do(cfg, st, a).sessions[s].phase.Responding?
    ensures s in st.sessions && st.sessions[s].phase.Responding?
    ensures var sess, next := st.sessions[s], Do(cfg, st, a).sessions[s];
            && next.filter == sess.filter
            && (if a == Client(s, ReadHelloNumber)
                then st.block.Idle? && next.phase.num.Some? && next.phase.num.value.num == st.last
                     && sess.phase.num.None? && (next.numberLast <==> sess.phase.past.Some?)
                else next.phase.num == sess.phase.num && next.numberLast == sess.numberLast)
            && (if a == Client(s, ReadPast)
                then sess.phase.past.None? && next.phase.past == Some(PastOf(st.svc, sess.filter.addr))
                else next.phase.past == sess.phase.past)
  {
    if !(a.Client? && a.s == s) {
      OthersKeep(cfg, st, a, s);
    }
  }

  // What has been read for a response, by the time both are read: the number between blocks, the backlog at
  // once; numberLast says which came later.
  lemma {:induction false} ReadsOrigin(cfg: Config, start: BlockNumber, acts: seq<Action>, s: nat)
      returns (i: nat, p: nat)
    requires Exec(cfg, start, acts).Some? && s in Exec(cfg, start, acts).value.sessions
    requires Exec(cfg, start, acts).value.sessions[s].phase.Responding?
    ensures var sess := Exec(cfg, start, acts).value.sessions[s];
            && (sess.phase.num.Some? ==>
                  && StepAt(cfg, start, acts, s, ReadHelloNumber, i)
                  && At(cfg, start, acts, i).last == sess.phase.num.value.num && At(cfg, start, acts, i).block.Idle?)
            && (sess.phase.past.Some? ==>
                  && StepAt(cfg, start, acts, s, ReadPast, p)
                  && PastOf(At(cfg, start, acts, p).svc, sess.filter.addr) == sess.phase.past.value)
            && (sess.phase.num.Some? && sess.phase.past.Some? ==> (sess.numberLast <==> p < i))
            && (sess.phase.num.Some? && sess.phase.past.None? ==> !sess.numberLast)
  {
    var n := |acts| - 1;
    var st, a := Exec(cfg, start, acts[..n]).value, acts[n];
    if a == Client(s, Listen) {
      i, p := 0, 0;
    } else {
      ReadsStep(cfg, st, a, s);
      i, p := ReadsOrigin(cfg, start, acts[..n], s);
      if st.sessions[s].phase.num.Some? {
        StepStays(cfg, start, acts, s, ReadHelloNumber, i);
      }
      if st.sessions[s].phase.past.Some? {
        StepStays(cfg, start, acts, s, ReadPast, p);
      }
      if a == Client(s, ReadHelloNumber) {
        i := n;
      } else if a == Client(s, ReadPast) {
        p := n;
      }
    }
  }

  // The first response holds the whole backlog of the event manager as it was when it was copied, and the
  // number that was the last validated one when it was read, between blocks; numberLast says which came later.
  lemma {:induction false} ResponseOrigin(cfg: Config, start: BlockNumber, acts: seq<Action>, s: nat)
      returns (i: nat, p: nat)
    requires Exec(cfg, start, acts).Some? && s in Exec(cfg, start, acts).value.sessions
    requires Exec(cfg, start, acts).value.sessions[s].hello.Some?
    ensures StepAt(cfg, start, acts, s, ReadHelloNumber, i) && StepAt(cfg, start, acts, s, ReadPast, p)
    ensures var sess := Exec(cfg, start, acts).value.sessions[s];
            && At(cfg, start, acts, i).last == sess.hello.value.num && At(cfg, start, acts, i).block.Idle?
            && PastOf(At(cfg, start, acts, p).svc, sess.filter.addr) == sess.hello.value.items
            && (sess.numberLast <==> p < i)
  {
    var n := |acts| - 1;
    var st := Exec(cfg, start, acts[..n]).value;
    if acts[n] == Client(s, Respond(true)) {
      i, p := ReadsOrigin(cfg, start, acts[..n], s);
    } else {
      if s in st.sessions {
        PhaseFitsRun(cfg, start, acts[..n], s);
      }
      OwnHello(cfg, st, acts[n], s);
      i, p := ResponseOrigin(cfg, start, acts[..n], s);
    }
    StepStays(cfg, start, acts, s, ReadHelloNumber, i);
    StepStays(cfg, start, acts, s, ReadPast, p);
  }
}

/** Nothing is lost, repeated or reordered on the way to a subscriber: at every step of every run its
    sent batches, batch in flight and queue are together exactly the matching logs since its Listen. */
module Conservation {
  import opened Eth
  import opened Service
  import opened Sessions
  import opened System
  import opened ServiceSafety

  // What session s has received is its stream; it listens from since until it is cancelled.
  ghost predicate Conserved(cfg: Config, s: nat, sess: Session, h: seq<Entry>, missed: seq<set<nat>>)
    requires |missed| == |h|
  {
    && (sess.filter.until.Some? <==> sess.phase.Cancelled?)
    && (sess.filter.until.Some? ==> sess.filter.until.value <= |h|)
    && if sess.phase.LookedUp?
       then sess.sent == [] && Received(sess) == []
       else sess.filter.since <= |h| && Received(sess) == Stream(cfg, s, sess.filter, h, missed)
  }

  // A pub/sub session that log i of the history is for; its callback parses the log's data.
  predicate Hears(sess: Session, i: nat, log: Log) {
    sess.filter.want.Pubsub? && !sess.phase.LookedUp? && Wanted(sess.filter, i, log)
  }

  // Some callback due for log i throws on it: the log is malformed, and a listener of the service or a
  // pub/sub session hears it.
  ghost predicate CutsOff(cfg: Config, sessions: map<nat, Session>, h: seq<Entry>, i: nat)
    requires i < |h|
  {
    && Malformed(cfg, h[i].log)
    && (|| Due(Fold(cfg, h[..i]).listeners, h[i].log, h[i].ord) != {}
        || exists t :: t in sessions && Hears(sessions[t], i, h[i].log))
  }

  // The dispatch of log i is over, by its end or by a throw.
  predicate Over(st: State, i: nat)
    requires Wf(st)
  {
    i < |st.history| && (st.block.Dispatching? ==> i < |st.history| - 1)
  }

  // Once the dispatch of a log is over, a callback is still owed only if another one threw.
  ghost predicate MissedInv(cfg: Config, st: State) {
    Wf(st) && forall i: nat | Over(st, i) :: st.missed[i] == {} || CutsOff(cfg, st.sessions, st.history, i)
  }

  // A session's callback that throws never returns.
  predicate ThrowersOwed(cfg: Config, st: State) {
    Wf(st) && (st.block.Dispatching? ==>
      forall t | t in st.sessions ::
        Hears(st.sessions[t], |st.history| - 1, Current(st).log) && cfg.decodeMsg(Current(st).log.data).None? ==>
          t in Owed(st))
  }

  ghost predicate AllConserved(cfg: Config, st: State) {
    Wf(st) && forall s | s in st.sessions :: Conserved(cfg, s, st.sessions[s], st.history, st.missed)
  }

  ghost predicate ConservationInv(cfg: Config, st: State) {
    OwedInv(cfg, st) && MissedInv(cfg, st) && ThrowersOwed(cfg, st) && AllConserved(cfg, st)
  }

  // What a log cut off depends on no later step.
  lemma CutsOffStays(cfg: Config, before: map<nat, Session>, after: map<nat, Session>, h: seq<Entry>, h': seq<Entry>,
                     i: nat)
    requires i < |h| && h <= h'
    requires forall t | t in before && Hears(before[t], i, h[i].log) :: t in after && Hears(after[t], i, h[i].log)
    requires forall t | t in after && Hears(after[t], i, h[i].log) :: t in before && Hears(before[t], i, h[i].log)
    ensures CutsOff(cfg, before, h, i) <==> CutsOff(cfg, after, h', i)
  {
    assert h[..i] == h'[..i];
  }

  // A session's own steps do not change which past logs it hears.
  lemma HearsOwn(cfg: Config, st: State, s: nat, step: ClientStep, i: nat)
    requires AllConserved(cfg, st) && ClientEnabled(st, s, step) && i < |st.history|
    ensures Hears(ClientDo(cfg, st, s, step), i, st.history[i].log) <==>
            s in st.sessions && Hears(st.sessions[s], i, st.history[i].log)
  {
    assert s in st.sessions ==> Conserved(cfg, s, st.sessions[s], st.history, st.missed);
  }

  lemma CutsOffOwn(cfg: Config, st: State, s: nat, step: ClientStep, i: nat)
    requires AllConserved(cfg, st) && ClientEnabled(st, s, step) && i < |st.history|
    ensures CutsOff(cfg, st.sessions, st.history, i) <==>
            CutsOff(cfg, SetSession(cfg, st, s, step).sessions, st.history, i)
  {
    HearsOwn(cfg, st, s, step, i);
    CutsOffStays(cfg, st.sessions, SetSession(cfg, st, s, step).sessions, st.history, st.history, i);
  }

  lemma CutsOffDelivered(cfg: Config, st: State, s: nat, i: nat)
    requires DispatchEnabled(cfg, st, CallSession(s)) && i < |st.history|
    ensures CutsOff(cfg, st.sessions, st.history, i) <==>
            CutsOff(cfg, RunSession(cfg, st, s).sessions, st.history, i)
  {
    CutsOffStays(cfg, st.sessions, RunSession(cfg, st, s).sessions, st.history, st.history, i);
  }

  lemma HeartbeatStep(cfg: Config, st: State, s: nat, step: ClientStep)
    requires Wf(st) && ClientEnabled(st, s, step)
    requires step.DrainQueue? || step.ReadNumber? || step.Send? || step.Fail? || step.CancelListener?
    requires Conserved(cfg, s, st.sessions[s], st.history, st.missed)
    ensures Conserved(cfg, s, ClientDo(cfg, st, s, step), st.history, st.missed)
  {
    var sess := st.sessions[s];
    HeartbeatConserves(sess, st.last, |st.history|);
    if step.CancelListener? {
      StreamCancel(cfg, s, sess.filter, |st.history|, st.history, st.missed);
    }
  }

  lemma SubscribeStep(cfg: Config, st: State, s: nat, step: ClientStep)
    requires Wf(st) && ClientEnabled(st, s, step)
    requires !(step.DrainQueue? || step.ReadNumber? || step.Send? || step.Fail? || step.CancelListener?)
    requires s in st.sessions ==> Conserved(cfg, s, st.sessions[s], st.history, st.missed)
    ensures Conserved(cfg, s, ClientDo(cfg, st, s, step), st.history, st.missed)
  {
    var sess' := ClientDo(cfg, st, s, step);
    if step.Listen? || step.SubscribeReceipts? {
      StreamBeforeListen(cfg, s, sess'.filter, st.history, st.missed);
    }
  }

  lemma OwnStepConserves(cfg: Config, st: State, s: nat, step: ClientStep)
    requires Wf(st) && ClientEnabled(st, s, step)
    requires s in st.sessions ==> Conserved(cfg, s, st.sessions[s], st.history, st.missed)
    ensures Conserved(cfg, s, ClientDo(cfg, st, s, step), st.history, st.missed)
  {
    if step.DrainQueue? || step.ReadNumber? || step.Send? || step.Fail? || step.CancelListener? {
      HeartbeatStep(cfg, st, s, step);
    } else {
      SubscribeStep(cfg, st, s, step);
    }
  }

  lemma KeepsListening(cfg: Config, st: State, s: nat, step: ClientStep)
    requires ClientEnabled(st, s, step) && s in st.sessions && st.block.Dispatching?
    ensures ClientDo(cfg, st, s, step).filter == st.sessions[s].filter
    ensures Listening(st.sessions[s]) ==> Listening(ClientDo(cfg, st, s, step))
  {}

  // While a log is dispatched no listener comes or goes.
  lemma OwnStepOwed(cfg: Config, st: State, s: nat, step: ClientStep)
    requires ConservationInv(cfg, st) && ClientEnabled(st, s, step)
    ensures OwedInv(cfg, SetSession(cfg, st, s, step))
  {
    if s in st.sessions && st.block.Dispatching? {
      KeepsListening(cfg, st, s, step);
    }
  }

  lemma ConservationClient(cfg: Config, st: State, s: nat, step: ClientStep)
    requires ConservationInv(cfg, st) && ClientEnabled(st, s, step)
    ensures ConservationInv(cfg, SetSession(cfg, st, s, step))
  {
    OwnStepOwed(cfg, st, s, step);
    var st' := SetSession(cfg, st, s, step);
    assert AllConserved(cfg, st') by {
      OwnStepConserves(cfg, st, s, step);
    }
    forall i: nat | i < |st.history|
      ensures CutsOff(cfg, st.sessions, st.history, i) <==> CutsOff(cfg, st'.sessions, st.history, i)
    {
      CutsOffOwn(cfg, st, s, step, i);
    }
    if st.block.Dispatching? {
      HearsOwn(cfg, st, s, step, |st.history| - 1);
    }
  }

  lemma ConservationHost(cfg: Config, st: State, h: HostStep)
    requires ConservationInv(cfg, st) && HostEnabled(st, h)
    ensures ConservationInv(cfg, HostDo(st, h))
  {
  }

  lemma ConservationBeginLog(cfg: Config, st: State)
    requires ConservationInv(cfg, st) && DispatchEnabled(cfg, st, BeginLog)
    ensures ConservationInv(cfg, StartLog(st))
  {
    BeginKeepsMissed(cfg, st);
    BeginOwes(cfg, st);
    forall t | t in st.sessions
      ensures Conserved(cfg, t, st.sessions[t], StartLog(st).history, StartLog(st).missed)
    {
      BeginKeepsStream(cfg, st, t);
    }
  }

  lemma BeginKeepsMissed(cfg: Config, st: State)
    requires MissedInv(cfg, st) && DispatchEnabled(cfg, st, BeginLog)
    ensures MissedInv(cfg, StartLog(st))
  {
    var st' := StartLog(st);
    forall i: nat | Over(st', i) ensures st'.missed[i] == {} || CutsOff(cfg, st'.sessions, st'.history, i) {
      assert Over(st, i);
      CutsOffStays(cfg, st.sessions, st.sessions, st.history, st'.history, i);
    }
  }

  lemma BeginOwes(cfg: Config, st: State)
    requires OwedInv(cfg, st) && AllConserved(cfg, st) && DispatchEnabled(cfg, st, BeginLog)
    ensures OwedInv(cfg, StartLog(st)) && ThrowersOwed(cfg, StartLog(st))
  {
    forall t | t in st.sessions ensures Conserved(cfg, t, st.sessions[t], st.history, st.missed) {}
  }

  lemma BeginKeepsStream(cfg: Config, st: State, t: nat)
    requires AllConserved(cfg, st) && DispatchEnabled(cfg, st, BeginLog) && t in st.sessions
    ensures Conserved(cfg, t, st.sessions[t], StartLog(st).history, StartLog(st).missed)
  {
    assert Conserved(cfg, t, st.sessions[t], st.history, st.missed);
  }

  // A callback for session s: its queue and its stream grow by the same items, the others by nothing.
  lemma DeliveryConserves(cfg: Config, s: nat, t: nat, sess: Session, h: seq<Entry>, missed: seq<set<nat>>)
    requires |missed| == |h| > 0 && s in missed[|h| - 1]
    requires Conserved(cfg, t, sess, h, missed)
    requires t == s ==> !sess.phase.LookedUp? && Wanted(sess.filter, |h| - 1, h[|h| - 1].log)
    ensures var sess' := if t == s then Delivered(sess, Items(cfg, sess.filter.want, h[|h| - 1])) else sess;
            Conserved(cfg, t, sess', h, missed[|h| - 1 := missed[|h| - 1] - {s}])
  {
    StreamDeliver(cfg, t, sess.filter, h, missed, s);
  }

  lemma ConservationCallSession(cfg: Config, st: State, s: nat)
    requires ConservationInv(cfg, st) && DispatchEnabled(cfg, st, CallSession(s))
    ensures ConservationInv(cfg, RunSession(cfg, st, s))
  {
    DeliveryKeepsMissed(cfg, st, s);
    DeliveryKeepsStreams(cfg, st, s);
  }

  lemma DeliveryKeepsStreams(cfg: Config, st: State, s: nat)
    requires OwedInv(cfg, st) && AllConserved(cfg, st) && DispatchEnabled(cfg, st, CallSession(s))
    ensures AllConserved(cfg, RunSession(cfg, st, s))
  {
    var st' := RunSession(cfg, st, s);
    forall t | t in st'.sessions ensures Conserved(cfg, t, st'.sessions[t], st'.history, st'.missed) {
      DeliveryConserves(cfg, s, t, st.sessions[t], st.history, st.missed);
    }
  }

  lemma DeliveryKeepsMissed(cfg: Config, st: State, s: nat)
    requires OwedInv(cfg, st) && MissedInv(cfg, st) && ThrowersOwed(cfg, st)
    requires DispatchEnabled(cfg, st, CallSession(s))
    ensures var t := RunSession(cfg, st, s); OwedInv(cfg, t) && MissedInv(cfg, t) && ThrowersOwed(cfg, t)
  {
    var st' := RunSession(cfg, st, s);
    forall i: nat | Over(st', i) ensures st'.missed[i] == {} || CutsOff(cfg, st'.sessions, st'.history, i) {
      assert Over(st, i);
      CutsOffDelivered(cfg, st, s, i);
    }
  }

  // A callback throws only on a log that is cut off.
  lemma ThrowCutsOff(cfg: Config, st: State, d: DispatchStep)
    requires cfg.Valid() && ServiceInv(cfg, st) && OwedInv(cfg, st) && DispatchEnabled(cfg, st, d)
    requires d.ThrowService? || d.ThrowSession?
    ensures CutsOff(cfg, st.sessions, st.history, |st.history| - 1)
  {
    if d.ThrowService? {
      ServiceThrow(cfg, st, d.k);
    } else {
      SessionThrow(cfg, st, d.s);
      assert Hears(st.sessions[d.s], |st.history| - 1, Current(st).log);
    }
  }

  // A callback still owed when a log's dispatch ends was cut off by that log.
  lemma CutOff(cfg: Config, st: State)
    requires ConservationInv(cfg, st) && st.block.Dispatching?
    requires CutsOff(cfg, st.sessions, st.history, |st.history| - 1)
    ensures ConservationInv(cfg, Leave(st, false))
  {
    forall i: nat | Over(Leave(st, false), i)
      ensures st.missed[i] == {} || CutsOff(cfg, st.sessions, st.history, i)
    {
      assert i < |st.history| - 1 ==> Over(st, i);
    }
  }

  lemma ConservationThrow(cfg: Config, st: State, d: DispatchStep)
    requires cfg.Valid() && ServiceInv(cfg, st) && ConservationInv(cfg, st) && DispatchEnabled(cfg, st, d)
    requires d.ThrowService? || d.ThrowSession?
    ensures ConservationInv(cfg, Leave(st, false))
  {
    ThrowCutsOff(cfg, st, d);
    CutOff(cfg, st);
  }

  lemma ConservationQuiet(cfg: Config, st: State, d: DispatchStep)
    requires ConservationInv(cfg, st) && DispatchEnabled(cfg, st, d)
    requires d.CallService? || d.RegStep? || d.EndLog?
    ensures ConservationInv(cfg, DispatchDo(cfg, st, d))
  {
    DispatchFrame(cfg, st, d);
  }

  lemma ConservationDispatch(cfg: Config, st: State, d: DispatchStep)
    requires cfg.Valid() && ServiceInv(cfg, st) && ConservationInv(cfg, st) && DispatchEnabled(cfg, st, d)
    ensures ConservationInv(cfg, DispatchDo(cfg, st, d))
  {
    match d
    case BeginLog => ConservationBeginLog(cfg, st);
    case CallSession(s) => ConservationCallSession(cfg, st, s);
    case ThrowService(_) => ConservationThrow(cfg, st, d);
    case ThrowSession(_) => ConservationThrow(cfg, st, d);
    case _ => ConservationQuiet(cfg, st, d);
  }
}

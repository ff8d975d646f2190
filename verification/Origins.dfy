/** Where everything that a session receives comes from: one log each, in the order of the logs. */
module Origins {
  import opened Eth
  import opened Service
  import opened Sessions
  import opened System
  import opened Conservation
  import opened Handover
  import opened Runs
  import opened Guarantees

  // The same contract, and the filter's topics are the log's first ones.
  predicate Selects(f: Filter, log: Log) {
    && log.addr == f.addr && |f.topics| <= |log.topics|
    && forall k | 0 <= k < |f.topics| :: log.topics[k] == f.topics[k]
  }

  // The log's position lies between the Listen and the Cancel.
  predicate WhileListening(f: Filter, i: nat) {
    f.since <= i && (f.until.Some? ==> i < f.until.value)
  }

  predicate Rising(idx: seq<nat>) {
    forall a, b | 0 <= a < b < |idx| :: idx[a] < idx[b]
  }

  // The positions of the logs that a stream is made of.
  lemma {:induction false} StreamIndices(cfg: Config, s: nat, f: Filter, h: seq<Entry>, missed: seq<set<nat>>)
      returns (idx: seq<nat>)
    requires |missed| == |h|
    ensures |idx| == |Stream(cfg, s, f, h, missed)| && Rising(idx)
    ensures forall j | 0 <= j < |idx| ::
              && idx[j] < |h| && Wanted(f, idx[j], h[idx[j]].log)
              && Items(cfg, f.want, h[idx[j]]) == [Stream(cfg, s, f, h, missed)[j]]
    ensures forall i: nat | i < |h| && Wanted(f, i, h[i].log) && s !in missed[i] && Items(cfg, f.want, h[i]) != [] ::
              i in idx
  {
    if h == [] {
      idx := [];
    } else {
      var n := |h| - 1;
      var before := StreamIndices(cfg, s, f, h[..n], missed[..n]);
      if Wanted(f, n, h[n].log) && s !in missed[n] && Items(cfg, f.want, h[n]) != [] {
        idx := before + [n];
      } else {
        idx := before;
      }
    }
  }

  lemma SelectsWanted(f: Filter, i: nat, log: Log)
    ensures Wanted(f, i, log) <==> WhileListening(f, i) && Selects(f, log)
  {
    if Selects(f, log) {
      assert f.topics == log.topics[..|f.topics|];
    }
  }

  // Everything that a receipt session ever receives is the receipt of a log that its filter selects,
  // dispatched while it listened, in the logs' order and each log once. Once a log's dispatch is over, it is
  // among them unless somebody's callback threw on it.
  lemma ReceiptOrigins(cfg: Config, st: State, s: nat) returns (idx: seq<nat>)
    requires cfg.Valid() && Reachable(cfg, st) && s in st.sessions && st.sessions[s].filter.want.Receipts? && Wf(st)
    requires !st.sessions[s].phase.LookedUp?
    ensures |idx| == |Received(st.sessions[s])| && Rising(idx)
    ensures forall j | 0 <= j < |idx| ::
              && idx[j] < |st.history|
              && WhileListening(st.sessions[s].filter, idx[j])
              && Selects(st.sessions[s].filter, st.history[idx[j]].log)
              && var e := st.history[idx[j]]; Received(st.sessions[s])[j] == Rc(e.blk, e.log.topics, e.log.data)
    ensures forall i: nat | Over(st, i) && WhileListening(st.sessions[s].filter, i) &&
                            Selects(st.sessions[s].filter, st.history[i].log) &&
                            !CutsOff(cfg, st.sessions, st.history, i) :: i in idx
  {
    var f := st.sessions[s].filter;
    DeliveryConserved(cfg, st, s);
    idx := StreamIndices(cfg, s, f, st.history, st.missed);
    forall i: nat | i < |st.history|
      ensures Wanted(f, i, st.history[i].log) <==> WhileListening(f, i) && Selects(f, st.history[i].log)
    {
      SelectsWanted(f, i, st.history[i].log);
    }
  }

  // Everything that a pub/sub session ever receives is the event of a notification of the one event manager
  // that its publisher's last registration named when the session looked it up, whatever is registered later,
  // in the notifications' order and each once. Once a notification's dispatch is over, its event is among
  // them. Only a lookup while a log was dispatched may have been answered from before that log.
  lemma Routing(cfg: Config, st: State, s: nat) returns (idx: seq<nat>)
    requires cfg.Valid() && Reachable(cfg, st) && s in st.sessions && st.sessions[s].filter.want.Pubsub? && Wf(st)
    requires !st.sessions[s].phase.LookedUp?
    ensures FoundAtLookup(cfg, st.sessions[s], st.history)
    ensures |idx| == |Received(st.sessions[s])| && Rising(idx)
    ensures forall j | 0 <= j < |idx| ::
              && idx[j] < |st.history|
              && WhileListening(st.sessions[s].filter, idx[j])
              && IsEvent(cfg, st.sessions[s].filter.addr, st.history[idx[j]], Received(st.sessions[s])[j])
    ensures forall i: nat, it: Item | Over(st, i) && WhileListening(st.sessions[s].filter, i) &&
                                      IsEvent(cfg, st.sessions[s].filter.addr, st.history[i], it) :: i in idx
  {
    var f := st.sessions[s].filter;
    ReachableSession(cfg, st, s);
    ReachableConservation(cfg, st);
    idx := StreamIndices(cfg, s, f, st.history, st.missed);
    forall i: nat | i < |st.history| ensures Heard(cfg, st, s, i) {
      HeardEvent(cfg, st, s, i);
    }
  }

  // The item is the parsed message of a notification of the event manager, with its block's number.
  predicate IsEvent(cfg: Config, mgr: Addr, e: Entry, it: Item) {
    && e.log.addr == mgr && |e.log.topics| > 0 && e.log.topics[0] == cfg.notifyTopic
    && cfg.decodeMsg(e.log.data).Some? && it == Ev(e.blk, cfg.decodeMsg(e.log.data).value)
  }

  // Log i is wanted, with an item, exactly where it is a notification with an event.
  ghost predicate Heard(cfg: Config, st: State, s: nat, i: nat)
    requires Wf(st) && s in st.sessions && i < |st.history|
  {
    var f, e := st.sessions[s].filter, st.history[i];
    && (forall it: Item :: Wanted(f, i, e.log) && Items(cfg, f.want, e) == [it] <==>
                           WhileListening(f, i) && IsEvent(cfg, f.addr, e, it))
    && (Wanted(f, i, e.log) && Items(cfg, f.want, e) != [] && Over(st, i) ==> s !in st.missed[i])
  }

  lemma HeardEvent(cfg: Config, st: State, s: nat, i: nat)
    requires cfg.Valid() && ConservationInv(cfg, st) && s in st.sessions && i < |st.history|
    requires st.sessions[s].filter.want.Pubsub?
    ensures Heard(cfg, st, s, i)
  {
    var f, e := st.sessions[s].filter, st.history[i];
    SelectsWanted(f, i, e.log);
    if Wanted(f, i, e.log) && Malformed(cfg, e.log) {
      MalformedItems(cfg, f, i, e);
    }
  }
}

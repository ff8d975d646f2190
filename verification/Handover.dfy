/** From backlog to live: which event manager a session belongs to, and how its snapshot and its live
    stream fit together. */
module Handover {
  import opened Eth
  import opened Service
  import opened ServiceHistory
  import opened Sessions
  import opened System
  import opened ServiceSafety
  import opened Conservation
  import opened Numbers

  // The session's event manager is the one that its publisher's last registration named at the lookup;
  // only a lookup while a log is dispatched may see the map before that log.
  ghost predicate FoundAtLookup(cfg: Config, sess: Session, h: seq<Entry>) {
    && sess.looked <= |h| && sess.filter.addr != ZERO_ADDR
    && (|| sess.filter.addr == LastRegistered(cfg, h[..sess.looked], sess.pub)
        || (&& sess.within && sess.looked > 0
            && sess.filter.addr == LastRegistered(cfg, h[..sess.looked - 1], sess.pub)))
  }

  // Where a pub/sub session comes from: its event manager, and the backlog's length at the Listen.
  ghost predicate Origin(cfg: Config, sess: Session, h: seq<Entry>) {
    sess.filter.want.Pubsub? ==>
      && FoundAtLookup(cfg, sess, h)
      && (!sess.phase.LookedUp? ==>
            && sess.looked <= sess.filter.since <= |h|
            && sess.baseLen == |PastOf(Fold(cfg, h[..sess.filter.since]), sess.filter.addr)|)
  }

  ghost predicate OriginInv(cfg: Config, st: State) {
    && (forall i, j | 0 <= i <= j < |st.history| :: st.history[i].ord <= st.history[j].ord)
    && (forall i | 0 <= i < |st.history| :: st.history[i].ord <= st.ord)
    && (st.strict ==> Rises(st.history) && forall i | 0 <= i < |st.history| :: Passed(st, st.history[i]))
    && (forall s | s in st.sessions ::
          Origin(cfg, st.sessions[s], st.history) && (st.block.Dispatching? ==> Began(st.sessions[s], st.history)))
  }

  // A block of a later ordinal has a higher number.
  ghost predicate Rises(h: seq<Entry>) {
    forall i, j | 0 <= i < j < |h| :: h[i].ord <= h[j].ord && (h[i].ord < h[j].ord ==> h[i].blk < h[j].blk)
  }

  // The entry's block is the last validated one or before it; before it, if another one is under way.
  predicate Passed(st: State, e: Entry) {
    st.last.Blk? && e.blk <= st.last.n && (e.ord < st.ord && !st.block.Idle? ==> e.blk < st.last.n)
  }

  // A session that listens began to before the log being dispatched.
  predicate Began(sess: Session, h: seq<Entry>) {
    !sess.phase.LookedUp? ==> sess.filter.since < |h|
  }

  lemma PartialMap(cfg: Config, base: ServiceState, e: Entry, todo: set<nat>, reg: Option<Registering>)
    requires |base.listeners| > 0
    ensures var p := Partial(cfg, base, e, todo, reg); p.mgrOf == base.mgrOf || p.mgrOf == Next(cfg, base, e).mgrOf
  {}

  lemma OriginLookup(cfg: Config, st: State, pub: Bytes)
    requires cfg.Valid() && ServiceInv(cfg, st) && EventMgrOf(st.svc, pub) != ZERO_ADDR
    ensures var mgr, h := EventMgrOf(st.svc, pub), st.history;
            Origin(cfg, Looked(pub, mgr, cfg.notifyTopic, |h|, st.block.Dispatching?), h)
  {
    var h := st.history;
    assert h[..|h|] == h;
    LookupMeaning(cfg, h, pub);
    if st.block.Dispatching? {
      LookupMeaning(cfg, h[..|h| - 1], pub);
      PartialMap(cfg, Base(cfg, st), Current(st), st.block.todo, st.block.reg);
    }
  }

  lemma OriginClient(cfg: Config, st: State, s: nat, step: ClientStep)
    requires cfg.Valid() && ServiceInv(cfg, st) && OriginInv(cfg, st) && ClientEnabled(st, s, step)
    ensures OriginInv(cfg, SetSession(cfg, st, s, step))
  {
    OriginOwn(cfg, st, s, step);
    if st.block.Dispatching? {
      BeganOwn(cfg, st, s, step);
    }
  }

  lemma BeganOwn(cfg: Config, st: State, s: nat, step: ClientStep)
    requires ClientEnabled(st, s, step) && st.block.Dispatching?
    requires s in st.sessions ==> Began(st.sessions[s], st.history)
    ensures Began(ClientDo(cfg, st, s, step), st.history)
  {}

  lemma OriginOwn(cfg: Config, st: State, s: nat, step: ClientStep)
    requires cfg.Valid() && ServiceInv(cfg, st) && ClientEnabled(st, s, step)
    requires s in st.sessions ==> Origin(cfg, st.sessions[s], st.history)
    ensures Origin(cfg, ClientDo(cfg, st, s, step), st.history)
  {
    if step.Lookup? {
      OriginLookup(cfg, st, step.pub);
    } else if step.Listen? {
      assert st.history[..|st.history|] == st.history;
    } else if s in st.sessions {
      KeepsOrigin(cfg, st, s, step);
    }
  }

  lemma KeepsOrigin(cfg: Config, st: State, s: nat, step: ClientStep)
    requires ClientEnabled(st, s, step) && s in st.sessions && !step.Listen?
    requires Origin(cfg, st.sessions[s], st.history)
    ensures Origin(cfg, ClientDo(cfg, st, s, step), st.history)
  {
    var sess, next := st.sessions[s], ClientDo(cfg, st, s, step);
    assert next.filter.(until := sess.filter.until) == sess.filter && next.phase.LookedUp? == sess.phase.LookedUp?;
    assert next.pub == sess.pub && next.looked == sess.looked && next.within == sess.within;
  }

  lemma OriginGrows(cfg: Config, sess: Session, h: seq<Entry>, e: Entry)
    requires Origin(cfg, sess, h)
    ensures Origin(cfg, sess, h + [e])
  {
    forall k | 0 <= k <= |h| ensures (h + [e])[..k] == h[..k] {}
  }

  lemma OriginBeginLog(cfg: Config, st: State)
    requires OriginInv(cfg, st) && ConservationInv(cfg, st) && BlockInv(st) && DispatchEnabled(cfg, st, BeginLog)
    ensures OriginInv(cfg, StartLog(st))
  {
    var e := Entry(st.block.num, st.ord, st.block.rest[0]);
    forall s | s in st.sessions
      ensures Origin(cfg, st.sessions[s], st.history + [e]) && Began(st.sessions[s], st.history + [e])
    {
      assert Conserved(cfg, s, st.sessions[s], st.history, st.missed);
      OriginGrows(cfg, st.sessions[s], st.history, e);
    }
  }

  lemma OriginDispatch(cfg: Config, st: State, d: DispatchStep)
    requires OriginInv(cfg, st) && ConservationInv(cfg, st) && BlockInv(st) && DispatchEnabled(cfg, st, d)
    ensures OriginInv(cfg, DispatchDo(cfg, st, d))
  {
    DispatchFrame(cfg, st, d);
    if d.BeginLog? {
      OriginBeginLog(cfg, st);
    } else if d.CallSession? {
      assert Origin(cfg, st.sessions[d.s], st.history) && Began(st.sessions[d.s], st.history);
    }
  }

  lemma OriginHost(cfg: Config, st: State, h: HostStep)
    requires OriginInv(cfg, st) && HostEnabled(st, h)
    ensures OriginInv(cfg, HostDo(st, h))
  {}

  // ----- the logs a pub/sub session wants are its event manager's notifications -----

  predicate PubsubFilter(cfg: Config, f: Filter) {
    f.want.Pubsub? && f.topics == [cfg.notifyTopic]
  }

  lemma PubsubItems(cfg: Config, f: Filter, i: nat, e: Entry)
    requires cfg.Valid() && PubsubFilter(cfg, f) && f.since <= i && f.until.None?
    ensures Wanted(f, i, e.log) <==> e.log.addr == f.addr && IsNotify(cfg, e.log)
    ensures (if Wanted(f, i, e.log) then Items(cfg, f.want, e) else []) ==
            if Notifies(cfg, f.addr, e) then [Event(cfg, e)] else []
  {
    FirstTopic(cfg, e.log);
  }

  // A malformed log that a pub/sub session wants has no event for it.
  lemma MalformedItems(cfg: Config, f: Filter, i: nat, e: Entry)
    requires cfg.Valid() && PubsubFilter(cfg, f) && Malformed(cfg, e.log) && Wanted(f, i, e.log)
    ensures Items(cfg, f.want, e) == []
  {
    FirstTopic(cfg, e.log);
  }

  // Up to the log being dispatched a pub/sub session has received every event it wants; once it is
  // cancelled it has at every step.
  lemma LiveIsComplete(cfg: Config, st: State, s: nat, n: nat)
    requires cfg.Valid() && ConservationInv(cfg, st) && s in st.sessions && n <= |st.history|
    requires st.block.Dispatching? ==> n < |st.history| || st.sessions[s].phase.Cancelled?
    requires PubsubFilter(cfg, st.sessions[s].filter)
    ensures Stream(cfg, s, st.sessions[s].filter, st.history[..n], st.missed[..n]) ==
            Ideal(cfg, st.sessions[s].filter, st.history[..n])
  {
    var f, h, m := st.sessions[s].filter, st.history[..n], st.missed[..n];
    forall i | 0 <= i < |h| && s in m[i] ensures Wanted(f, i, h[i].log) ==> Items(cfg, f.want, h[i]) == [] {
      assert Over(st, i) && st.missed[i] != {};
      if Wanted(f, i, h[i].log) {
        MalformedItems(cfg, f, i, h[i]);
      }
    }
    StreamIsIdeal(cfg, s, f, h, m);
  }

  // ----- backlog against live stream -----

  // Every notification since the Listen came after exactly one visible registration of its manager.
  ghost predicate OneEach(cfg: Config, h: seq<Entry>, f: Filter) {
    forall i {:trigger Registrations(cfg, h[..i], f.addr, h[i].ord)} |
      f.since <= i < |h| && Notifies(cfg, f.addr, h[i]) :: Registrations(cfg, h[..i], f.addr, h[i].ord) == 1
  }

  // ... after at least one: nothing is live that the backlog lacks.
  ghost predicate SomeEach(cfg: Config, h: seq<Entry>, f: Filter) {
    forall i {:trigger Registrations(cfg, h[..i], f.addr, h[i].ord)} |
      f.since <= i < |h| && Notifies(cfg, f.addr, h[i]) :: Registrations(cfg, h[..i], f.addr, h[i].ord) >= 1
  }

  lemma EachPrefix(cfg: Config, h: seq<Entry>, f: Filter, e: Entry)
    requires f.since <= |h|
    ensures OneEach(cfg, h + [e], f) <==>
            OneEach(cfg, h, f) && (Notifies(cfg, f.addr, e) ==> Registrations(cfg, h, f.addr, e.ord) == 1)
    ensures SomeEach(cfg, h + [e], f) <==>
            SomeEach(cfg, h, f) && (Notifies(cfg, f.addr, e) ==> Registrations(cfg, h, f.addr, e.ord) >= 1)
  {
    var h' := h + [e];
    assert h'[..|h|] == h && h'[|h|] == e;
    forall i | 0 <= i < |h| ensures h'[..i] == h[..i] && h'[i] == h[i] {}
    forall i | f.since <= i < |h| && Notifies(cfg, f.addr, h[i]) ensures Notifies(cfg, f.addr, h'[i]) {}
  }

  // Where nothing is live but not recorded, the backlog since the Listen is the live stream exactly when
  // every notification was recorded once.
  lemma {:induction false} RecordedIsLive(cfg: Config, f: Filter, h: seq<Entry>)
    requires cfg.Valid() && PubsubFilter(cfg, f) && f.until.None? && f.since <= |h| && SomeEach(cfg, h, f)
    ensures PastOf(Fold(cfg, h), f.addr) == PastOf(Fold(cfg, h[..f.since]), f.addr) + Ideal(cfg, f, h) <==>
            OneEach(cfg, h, f)
    ensures |PastOf(Fold(cfg, h), f.addr)| >= |PastOf(Fold(cfg, h[..f.since]), f.addr)| + |Ideal(cfg, f, h)|
  {
    if |h| == f.since {
      LiveAtListen(cfg, f, h);
    } else {
      var before, e := h[..|h| - 1], h[|h| - 1];
      assert h == before + [e] && before[..f.since] == h[..f.since];
      EachPrefix(cfg, before, f, e);
      RecordedIsLive(cfg, f, before);
      var more, item := LiveStep(cfg, f, before, e);
      SameSplit(PastOf(Fold(cfg, before), f.addr), more, PastOf(Fold(cfg, before[..f.since]), f.addr),
                Ideal(cfg, f, before), item);
    }
  }

  lemma LiveAtListen(cfg: Config, f: Filter, h: seq<Entry>)
    requires f.since == |h|
    ensures OneEach(cfg, h, f) && h[..f.since] == h && Ideal(cfg, f, h) == []
  {
    IdealBeforeListen(cfg, f, h);
  }

  // What one log adds to the backlog and to the live stream.
  lemma LiveStep(cfg: Config, f: Filter, before: seq<Entry>, e: Entry) returns (more: seq<Item>, item: seq<Item>)
    requires cfg.Valid() && PubsubFilter(cfg, f) && f.until.None? && f.since <= |before|
    requires Notifies(cfg, f.addr, e) ==> Registrations(cfg, before, f.addr, e.ord) >= 1
    ensures PastOf(Fold(cfg, before + [e]), f.addr) == PastOf(Fold(cfg, before), f.addr) + more
    ensures Ideal(cfg, f, before + [e]) == Ideal(cfg, f, before) + item
    ensures |more| >= |item| && (|more| == |item| ==> more == item)
    ensures |more| == |item| <==> (Notifies(cfg, f.addr, e) ==> Registrations(cfg, before, f.addr, e.ord) == 1)
  {
    BacklogStep(cfg, before, e, f.addr);
    PubsubItems(cfg, f, |before|, e);
    assert (before + [e])[..|before|] == before;
    if Notifies(cfg, f.addr, e) {
      more, item := Copies(Event(cfg, e), Registrations(cfg, before, f.addr, e.ord)), [Event(cfg, e)];
    } else {
      more, item := [], [];
    }
  }

  // When neither part is shorter, two concatenations agree only part by part.
  lemma SameSplit(a: seq<Item>, b: seq<Item>, c: seq<Item>, d: seq<Item>, e: seq<Item>)
    requires |a| >= |c| + |d| && |b| >= |e|
    requires |b| == |e| ==> b == e
    ensures a + b == c + (d + e) <==> a == c + d && |b| == |e|
  {
    assert c + (d + e) == (c + d) + e;
    if a + b == c + (d + e) {
      assert a == (a + b)[..|a|] && c + d == ((c + d) + e)[..|c + d|];
    }
  }

  lemma {:induction false} IdealBeforeListen(cfg: Config, f: Filter, h: seq<Entry>)
    requires |h| <= f.since
    ensures Ideal(cfg, f, h) == []
  {
    if h != [] {
      IdealBeforeListen(cfg, f, h[..|h| - 1]);
    }
  }

  // ----- an event that is live but not recorded -----

  // Where a registration is visible from the next block on, one that log i did not see is not seen by any
  // log of the same block.
  lemma {:induction false} StillUnseen(cfg: Config, h: seq<Entry>, mgr: Addr, i: nat, n: nat)
    requires !cfg.seesRest && Rises(h) && i <= n <= |h| && i < |h|
    requires Registrations(cfg, h[..i], mgr, h[i].ord) == 0
    ensures Registrations(cfg, h[..n], mgr, h[i].ord) == 0
  {
    if n > i {
      StillUnseen(cfg, h, mgr, i, n - 1);
      assert h[..n] == h[..n - 1] + [h[n - 1]];
      assert h[i].ord <= h[n - 1].ord;
    }
  }

  lemma {:induction false} SeenMore(cfg: Config, h: seq<Entry>, mgr: Addr, ord: nat, ord': nat)
    requires ord <= ord'
    ensures Registrations(cfg, h, mgr, ord) <= Registrations(cfg, h, mgr, ord')
  {
    if h != [] {
      SeenMore(cfg, h[..|h| - 1], mgr, ord, ord');
    }
  }

  // If log i saw no registration and log k does, log k is of a later block.
  lemma LaterBlock(cfg: Config, h: seq<Entry>, mgr: Addr, i: nat, k: nat)
    requires !cfg.seesRest && Rises(h) && i < |h| && k < |h|
    requires Registrations(cfg, h[..i], mgr, h[i].ord) == 0 < Registrations(cfg, h[..k], mgr, h[k].ord)
    ensures h[i].blk < h[k].blk
  {
    if k < i {
      RegistrationsGrow(cfg, h[..i], k, mgr, h[k].ord);
      assert h[..i][..k] == h[..k];
      SeenMore(cfg, h[..i], mgr, h[k].ord, h[i].ord);
    } else {
      StillUnseen(cfg, h, mgr, i, k);
    }
  }

  // Log i is not recorded, so whatever the backlog gains since the Listen is of later blocks.
  lemma {:induction false} GainsLater(cfg: Config, f: Filter, h: seq<Entry>, i: nat, n: nat)
    requires cfg.Valid() && !cfg.seesRest && Rises(h) && f.since <= n <= |h| && i < |h|
    requires Registrations(cfg, h[..i], f.addr, h[i].ord) == 0
    ensures var base, b := PastOf(Fold(cfg, h[..f.since]), f.addr), PastOf(Fold(cfg, h[..n]), f.addr);
            |base| <= |b| && forall j | |base| <= j < |b| :: h[i].blk < b[j].blk
  {
    if n > f.since {
      GainsLater(cfg, f, h, i, n - 1);
      var more := GainsStep(cfg, f.addr, h, i, n - 1);
    }
  }

  lemma GainsStep(cfg: Config, mgr: Addr, h: seq<Entry>, i: nat, k: nat) returns (more: seq<Item>)
    requires cfg.Valid() && !cfg.seesRest && Rises(h) && k < |h| && i < |h|
    requires Registrations(cfg, h[..i], mgr, h[i].ord) == 0
    ensures PastOf(Fold(cfg, h[..k + 1]), mgr) == PastOf(Fold(cfg, h[..k]), mgr) + more
    ensures forall j | 0 <= j < |more| :: h[i].blk < more[j].blk
  {
    assert h[..k + 1] == h[..k] + [h[k]];
    BacklogStep(cfg, h[..k], h[k], mgr);
    var n := Registrations(cfg, h[..k], mgr, h[k].ord);
    more := if Notifies(cfg, mgr, h[k]) then Copies(Event(cfg, h[k]), n) else [];
    if n > 0 {
      LaterBlock(cfg, h, mgr, i, k);
    }
  }

  // A wanted notification is in the live stream, after what is live before it.
  lemma {:induction false} IdealAt(cfg: Config, f: Filter, h: seq<Entry>, i: nat)
    requires cfg.Valid() && PubsubFilter(cfg, f) && f.until.None? && f.since <= i < |h| && Notifies(cfg, f.addr, h[i])
    ensures var j := |Ideal(cfg, f, h[..i])|; j < |Ideal(cfg, f, h)| && Ideal(cfg, f, h)[j] == Event(cfg, h[i])
  {
    var n := |h| - 1;
    if i == n {
      PubsubItems(cfg, f, i, h[i]);
    } else {
      IdealAt(cfg, f, h[..n], i);
      assert h[..n][..i] == h[..i];
    }
  }

  lemma UnrecordedDiffers(cfg: Config, f: Filter, h: seq<Entry>, i: nat)
    requires cfg.Valid() && PubsubFilter(cfg, f) && f.until.None? && !cfg.seesRest && Rises(h)
    requires f.since <= i < |h| && Notifies(cfg, f.addr, h[i]) && Registrations(cfg, h[..i], f.addr, h[i].ord) == 0
    ensures PastOf(Fold(cfg, h), f.addr) != PastOf(Fold(cfg, h[..f.since]), f.addr) + Ideal(cfg, f, h)
  {
    IdealAt(cfg, f, h, i);
    GainsLater(cfg, f, h, i, |h|);
    assert h[..|h|] == h;
    var base, live, j := PastOf(Fold(cfg, h[..f.since]), f.addr), Ideal(cfg, f, h), |Ideal(cfg, f, h[..i])|;
    var all := base + live;
    assert all[|base| + j] == live[j];
  }

  // The backlog since the Listen is the live stream exactly when every notification was recorded once:
  // where nothing is live but not recorded, or where registrations are visible from the next block on and
  // later blocks have higher numbers.
  lemma BacklogIsLive(cfg: Config, f: Filter, h: seq<Entry>)
    requires cfg.Valid() && PubsubFilter(cfg, f) && f.until.None? && f.since <= |h|
    requires SomeEach(cfg, h, f) || (!cfg.seesRest && Rises(h))
    ensures PastOf(Fold(cfg, h), f.addr) == PastOf(Fold(cfg, h[..f.since]), f.addr) + Ideal(cfg, f, h) <==>
            OneEach(cfg, h, f)
    ensures SomeEach(cfg, h, f) ==>
              |PastOf(Fold(cfg, h), f.addr)| >= |PastOf(Fold(cfg, h[..f.since]), f.addr)| + |Ideal(cfg, f, h)|
  {
    if SomeEach(cfg, h, f) {
      RecordedIsLive(cfg, f, h);
    } else {
      var i :| f.since <= i < |h| && Notifies(cfg, f.addr, h[i]) && Registrations(cfg, h[..i], f.addr, h[i].ord) < 1;
      UnrecordedDiffers(cfg, f, h, i);
    }
  }

  // ----- a listener that sees the rest of its block sees everything -----

  // The lookup succeeded, so a registration names the event manager.
  lemma {:induction false} LookupRegistered(cfg: Config, h: seq<Entry>, pub: Bytes, ord: nat)
    requires LastRegistered(cfg, h, pub) != ZERO_ADDR
    requires forall i | 0 <= i < |h| :: CallbackSince(cfg, h[i].ord) <= ord
    ensures Registrations(cfg, h, LastRegistered(cfg, h, pub), ord) >= 1
  {
    var before, e := h[..|h| - 1], h[|h| - 1];
    var r := Registers(cfg, before, e);
    if !(r.Some? && r.value.pub == pub) {
      LookupRegistered(cfg, before, pub, ord);
    }
  }

  lemma ListenedAfterRegistration(cfg: Config, sess: Session, h: seq<Entry>)
    requires cfg.Valid() && cfg.seesRest && Origin(cfg, sess, h)
    requires forall i, j | 0 <= i <= j < |h| :: h[i].ord <= h[j].ord
    requires sess.filter.want.Pubsub? && !sess.phase.LookedUp?
    ensures SomeEach(cfg, h, sess.filter)
  {
    var f := sess.filter;
    var k := if f.addr == LastRegistered(cfg, h[..sess.looked], sess.pub) then sess.looked else sess.looked - 1;
    forall i | f.since <= i < |h| && Notifies(cfg, f.addr, h[i])
      ensures Registrations(cfg, h[..i], f.addr, h[i].ord) >= 1
    {
      LookupRegistered(cfg, h[..k], sess.pub, h[i].ord);
      RegistrationsGrow(cfg, h[..i], k, f.addr, h[i].ord);
      assert h[..i][..k] == h[..k];
    }
  }
}

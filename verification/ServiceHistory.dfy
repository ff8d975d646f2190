/** What the fold means: the deployed flag, the publisher map, the listeners and the backlogs, each
    read off the history of logs without running the service. */
module ServiceHistory {
  import opened Eth
  import opened Abi
  import opened Service

  // The block ordinal from which registrations are heard: set by the first deploy log.
  function HeardFrom(cfg: Config, h: seq<Entry>): Option<nat> {
    if h == [] then None else
    match HeardFrom(cfg, h[..|h| - 1])
    case Some(o) => Some(o)
    case None => if IsDeploy(cfg, h[|h| - 1].log) then Some(CallbackSince(cfg, h[|h| - 1].ord)) else None
  }

  // The registration that a log makes, given the logs before it: none before deployment is heard of.
  function Registers(cfg: Config, before: seq<Entry>, e: Entry): Option<Registrant> {
    match HeardFrom(cfg, before)
    case None => None
    case Some(o) => if IsRegistration(cfg, e.log) && o <= e.ord then DecodeRegistration(e.log.data) else None
  }

  // How many registrations in the history name an event manager and are visible in block ord.
  function Registrations(cfg: Config, h: seq<Entry>, mgr: Addr, ord: nat): nat {
    if h == [] then 0 else
    Registrations(cfg, h[..|h| - 1], mgr, ord) +
    match Registers(cfg, h[..|h| - 1], h[|h| - 1])
    case Some(r) => if r.mgr == mgr && CallbackSince(cfg, h[|h| - 1].ord) <= ord then 1 else 0
    case None => 0
  }

  // The event manager that the publisher's last registration names.
  function LastRegistered(cfg: Config, h: seq<Entry>, pub: Bytes): Addr {
    if h == [] then ZERO_ADDR else
    match Registers(cfg, h[..|h| - 1], h[|h| - 1])
    case Some(r) => if r.pub == pub then r.mgr else LastRegistered(cfg, h[..|h| - 1], pub)
    case None => LastRegistered(cfg, h[..|h| - 1], pub)
  }

  // A well-formed notification of an event manager.
  predicate Notifies(cfg: Config, mgr: Addr, e: Entry) {
    e.log.addr == mgr && IsNotify(cfg, e.log) && cfg.decodeMsg(e.log.data).Some?
  }

  function Event(cfg: Config, e: Entry): Item
    requires Notifies(cfg, e.log.addr, e)
  {
    Ev(e.blk, cfg.decodeMsg(e.log.data).value)
  }

  // The notifications of an event manager in dispatch order, each once per registration that named
  // the event manager before it.
  function Replay(cfg: Config, h: seq<Entry>, mgr: Addr): seq<Item> {
    if h == [] then [] else
    Replay(cfg, h[..|h| - 1], mgr) +
    (var e := h[|h| - 1];
     if Notifies(cfg, mgr, e) then Copies(Event(cfg, e), Registrations(cfg, h[..|h| - 1], mgr, e.ord)) else [])
  }

  // The same with each notification at most once.
  function Once(cfg: Config, h: seq<Entry>, mgr: Addr): seq<Item> {
    if h == [] then [] else
    Once(cfg, h[..|h| - 1], mgr) +
    (var e := h[|h| - 1];
     if Notifies(cfg, mgr, e) && Registrations(cfg, h[..|h| - 1], mgr, e.ord) > 0 then [Event(cfg, e)] else [])
  }

  lemma {:induction false} DeployedMeaning(cfg: Config, h: seq<Entry>, ord: nat)
    requires cfg.Valid()
    ensures Fold(cfg, h).deployed <==> HeardFrom(cfg, h).Some?
    ensures RegActive(Fold(cfg, h), ord) <==> HeardFrom(cfg, h).Some? && HeardFrom(cfg, h).value <= ord
  {
    FoldShape(cfg, h);
    if h != [] {
      var before := h[..|h| - 1];
      DeployedMeaning(cfg, before, ord);
      FoldShape(cfg, before);
      DueByKind(cfg, Fold(cfg, before), h[|h| - 1].log, ord);
    }
  }

  // A step of the fold is the registration it makes, or leaves map and listeners alone.
  lemma StepMeaning(cfg: Config, before: seq<Entry>, e: Entry)
    requires cfg.Valid()
    ensures Fold(cfg, before + [e]) == Next(cfg, Fold(cfg, before), e)
    ensures match Registers(cfg, before, e)
            case Some(r) => Fold(cfg, before + [e]) == OnRegistration(cfg, Fold(cfg, before), r.pub, r.mgr, e.ord)
            case None =>
              && Fold(cfg, before + [e]).mgrOf == Fold(cfg, before).mgrOf
              && Fold(cfg, before + [e]).backlog.Keys == Fold(cfg, before).backlog.Keys
              && (!IsDeploy(cfg, e.log) ==> Fold(cfg, before + [e]).listeners == Fold(cfg, before).listeners)
  {
    assert (before + [e])[..|before|] == before;
    DeployedMeaning(cfg, before, e.ord);
    FoldShape(cfg, before);
    DueByKind(cfg, Fold(cfg, before), e.log, e.ord);
  }

  // One past listener per registration naming the event manager.
  lemma {:induction false} PastListenersCount(cfg: Config, h: seq<Entry>, mgr: Addr, ord: nat)
    requires cfg.Valid()
    ensures |PastDue(Fold(cfg, h).listeners, mgr, ord)| == Registrations(cfg, h, mgr, ord)
  {
    if h != [] {
      var before, e := h[..|h| - 1], h[|h| - 1];
      assert h == before + [e];
      PastListenersCount(cfg, before, mgr, ord);
      PastListenersStep(cfg, before, e, mgr, ord);
    }
  }

  lemma PastListenersStep(cfg: Config, before: seq<Entry>, e: Entry, mgr: Addr, ord: nat)
    requires cfg.Valid()
    ensures |PastDue(Fold(cfg, before + [e]).listeners, mgr, ord)| == |PastDue(Fold(cfg, before).listeners, mgr, ord)| +
            match Registers(cfg, before, e)
            case Some(r) => if r.mgr == mgr && CallbackSince(cfg, e.ord) <= ord then 1 else 0
            case None => 0
  {
    StepMeaning(cfg, before, e);
    var s := Fold(cfg, before).listeners;
    match Registers(cfg, before, e)
    case Some(r) =>
      AddPast(s, PastListener(cfg, r.mgr, CallbackSince(cfg, e.ord)), mgr, ord);
    case None =>
      if IsDeploy(cfg, e.log) && !Fold(cfg, before).deployed {
        FoldShape(cfg, before);
        var t := Fold(cfg, before + [e]).listeners;
        assert PastDue(s, mgr, ord) == {} && PastDue(t, mgr, ord) == {};
      }
  }

  lemma AddPast(ls: seq<Listener>, l: Listener, mgr: Addr, ord: nat)
    requires l.kind.Past?
    ensures |PastDue(ls + [l], mgr, ord)| == |PastDue(ls, mgr, ord)| + if l.addr == mgr && Active(l, ord) then 1 else 0
  {
    if l.addr == mgr && Active(l, ord) {
      assert PastDue(ls + [l], mgr, ord) == PastDue(ls, mgr, ord) + {|ls|};
    } else {
      assert PastDue(ls + [l], mgr, ord) == PastDue(ls, mgr, ord);
    }
  }

  // The lookup returns the last registration.
  lemma {:induction false} LookupMeaning(cfg: Config, h: seq<Entry>, pub: Bytes)
    requires cfg.Valid()
    ensures EventMgrOf(Fold(cfg, h), pub) == LastRegistered(cfg, h, pub)
  {
    if h != [] {
      var before, e := h[..|h| - 1], h[|h| - 1];
      assert h == before + [e];
      LookupMeaning(cfg, before, pub);
      StepMeaning(cfg, before, e);
    }
  }

  // The backlog is the replay.
  lemma {:induction false} BacklogMeaning(cfg: Config, h: seq<Entry>, mgr: Addr)
    requires cfg.Valid()
    ensures PastOf(Fold(cfg, h), mgr) == Replay(cfg, h, mgr)
  {
    if h != [] {
      var before, e := h[..|h| - 1], h[|h| - 1];
      assert h == before + [e];
      BacklogMeaning(cfg, before, mgr);
      BacklogStep(cfg, before, e, mgr);
    }
  }

  lemma BacklogStep(cfg: Config, before: seq<Entry>, e: Entry, mgr: Addr)
    requires cfg.Valid()
    ensures PastOf(Fold(cfg, before + [e]), mgr) == PastOf(Fold(cfg, before), mgr) +
            if Notifies(cfg, mgr, e) then Copies(Event(cfg, e), Registrations(cfg, before, mgr, e.ord)) else []
  {
    var s := Fold(cfg, before);
    assert (before + [e])[..|before|] == before;
    if Notifies(cfg, mgr, e) {
      FoldShape(cfg, before);
      PastListenersCount(cfg, before, mgr, e.ord);
      NotifyStep(cfg, s, e);
    } else {
      QuietStep(cfg, s, e, mgr);
    }
  }

  lemma NotifyStep(cfg: Config, s: ServiceState, e: Entry)
    requires cfg.Valid() && |s.listeners| > 0 && Shape(cfg, s) && Notifies(cfg, e.log.addr, e)
    ensures PastOf(Next(cfg, s, e), e.log.addr) ==
            PastOf(s, e.log.addr) + Copies(Event(cfg, e), |PastDue(s.listeners, e.log.addr, e.ord)|)
  {
    DueByKind(cfg, s, e.log, e.ord);
    if e.log.addr !in s.backlog {
      assert PastDue(s.listeners, e.log.addr, e.ord) == {};
    }
  }

  lemma QuietStep(cfg: Config, s: ServiceState, e: Entry, mgr: Addr)
    requires |s.listeners| > 0 && !Notifies(cfg, mgr, e)
    ensures PastOf(Next(cfg, s, e), mgr) == PastOf(s, mgr)
  {}

  // Registrations only accumulate.
  lemma {:induction false} RegistrationsGrow(cfg: Config, h: seq<Entry>, i: nat, mgr: Addr, ord: nat)
    requires i <= |h|
    ensures Registrations(cfg, h[..i], mgr, ord) <= Registrations(cfg, h, mgr, ord)
  {
    if i == |h| {
      assert h[..i] == h;
    } else {
      RegistrationsGrow(cfg, h[..|h| - 1], i, mgr, ord);
      assert h[..|h| - 1][..i] == h[..i];
    }
  }

  // No notification of the event manager was dispatched while two registrations named it.
  ghost predicate SingleListener(cfg: Config, h: seq<Entry>, mgr: Addr) {
    forall i | 0 <= i < |h| && Notifies(cfg, mgr, h[i]) :: Registrations(cfg, h[..i], mgr, h[i].ord) <= 1
  }

  // The backlog holds every event once exactly when no notification came after two registrations of
  // its event manager; it never holds less.
  lemma {:induction false} BacklogOnce(cfg: Config, h: seq<Entry>, mgr: Addr)
    requires cfg.Valid()
    ensures PastOf(Fold(cfg, h), mgr) == Once(cfg, h, mgr) <==> SingleListener(cfg, h, mgr)
    ensures |PastOf(Fold(cfg, h), mgr)| >= |Once(cfg, h, mgr)|
  {
    BacklogMeaning(cfg, h, mgr);
    ReplayOnce(cfg, h, mgr);
  }

  lemma {:induction false} ReplayOnce(cfg: Config, h: seq<Entry>, mgr: Addr)
    ensures Replay(cfg, h, mgr) == Once(cfg, h, mgr) <==> SingleListener(cfg, h, mgr)
    ensures |Replay(cfg, h, mgr)| >= |Once(cfg, h, mgr)|
  {
    if h != [] {
      var before, e := h[..|h| - 1], h[|h| - 1];
      ReplayOnce(cfg, before, mgr);
      assert SingleListener(cfg, h, mgr) <==>
             SingleListener(cfg, before, mgr) &&
             (Notifies(cfg, mgr, e) ==> Registrations(cfg, before, mgr, e.ord) <= 1) by {
        forall i | 0 <= i < |before| ensures h[..i] == before[..i] && h[i] == before[i] {}
        if SingleListener(cfg, h, mgr) {
          forall i | 0 <= i < |before| && Notifies(cfg, mgr, before[i])
            ensures Registrations(cfg, before[..i], mgr, before[i].ord) <= 1
          {
            assert Notifies(cfg, mgr, h[i]);
          }
        }
      }
      var r, o := Replay(cfg, before, mgr), Once(cfg, before, mgr);
      if Replay(cfg, h, mgr) == Once(cfg, h, mgr) {
        assert |r| == |o|;
        assert r == Replay(cfg, h, mgr)[..|r|] == Once(cfg, h, mgr)[..|o|] == o;
      }
    }
  }

  // In particular when every registration names a fresh event manager.
  lemma FreshEventManagers(cfg: Config, h: seq<Entry>, mgr: Addr)
    requires cfg.Valid()
    requires forall ord: nat :: Registrations(cfg, h, mgr, ord) <= 1
    ensures PastOf(Fold(cfg, h), mgr) == Once(cfg, h, mgr)
  {
    forall i | 0 <= i < |h| && Notifies(cfg, mgr, h[i])
      ensures Registrations(cfg, h[..i], mgr, h[i].ord) <= 1
    {
      RegistrationsGrow(cfg, h, i, mgr, h[i].ord);
    }
    BacklogOnce(cfg, h, mgr);
  }

  // Nothing a log does discards a backlog entry or a backlog queue.
  lemma {:induction false} BacklogGrows(cfg: Config, h: seq<Entry>, i: nat, mgr: Addr)
    requires i <= |h|
    ensures PastOf(Fold(cfg, h[..i]), mgr) <= PastOf(Fold(cfg, h), mgr)
    ensures Fold(cfg, h[..i]).backlog.Keys <= Fold(cfg, h).backlog.Keys
    ensures Fold(cfg, h[..i]).deployed ==> Fold(cfg, h).deployed
  {
    if i == |h| {
      assert h[..i] == h;
    } else {
      var before := h[..|h| - 1];
      BacklogGrows(cfg, before, i, mgr);
      assert before[..i] == h[..i];
      NextGrows(cfg, Fold(cfg, before), h[|h| - 1], mgr);
    }
  }
}

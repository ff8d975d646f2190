/** At every step of every run the service's state is the fold of the dispatched logs, up to the
    callbacks of the one log being dispatched. */
module ServiceSafety {
  import opened Eth
  import opened Abi
  import opened Service
  import opened Sessions
  import opened System

  // What the service's state must be while log e is dispatched on top of base: the callbacks in todo
  // have not run, and a registration callback may be between two of its steps.
  function Partial(cfg: Config, base: ServiceState, e: Entry, todo: set<nat>, reg: Option<Registering>): ServiceState
    requires |base.listeners| > 0
  {
    if IsDeploy(cfg, e.log) then
      if base.deployed || 0 in todo then base else OnDeploy(cfg, base, 0, e.ord)
    else if IsRegistration(cfg, e.log) then
      if !RegActive(base, e.ord) || 1 in todo then base else
      match DecodeRegistration(e.log.data)
      case None => base
      case Some(r) =>
        if reg.None? then OnRegistration(cfg, base, r.pub, r.mgr, e.ord)
        else if reg.value.stage == 0 then base
        else if reg.value.stage == 1 then WriteMap(base, r.pub, r.mgr)
        else Emplace(WriteMap(base, r.pub, r.mgr), r.mgr)
    else if IsNotify(cfg, e.log) then
      match cfg.decodeMsg(e.log.data)
      case None => base
      case Some(msg) => AppendCopies(base, e.log.addr, Ev(e.blk, msg), |Due(base.listeners, e.log, e.ord) - todo|)
    else base
  }

  // A registration step under way belongs to the log being dispatched.
  predicate RegFits(cfg: Config, base: ServiceState, e: Entry, todo: set<nat>, reg: Option<Registering>) {
    reg.Some? ==>
      && !IsDeploy(cfg, e.log) && IsRegistration(cfg, e.log) && RegActive(base, e.ord) && 1 !in todo
      && DecodeRegistration(e.log.data) == Some(Registrant(reg.value.pub, reg.value.mgr))
      && reg.value.stage <= 2
  }

  function Base(cfg: Config, st: State): (s: ServiceState)
    requires Wf(st) && st.block.Dispatching?
    ensures |s.listeners| > 0
  {
    Fold(cfg, st.history[..|st.history| - 1])
  }

  // No callback of a malformed log returns.
  ghost predicate ServiceInv(cfg: Config, st: State) {
    Wf(st) &&
    if st.block.Dispatching? then
      && st.block.todo <= Due(Base(cfg, st).listeners, Current(st).log, Current(st).ord)
      && (Malformed(cfg, Current(st).log) ==>
            st.block.todo == Due(Base(cfg, st).listeners, Current(st).log, Current(st).ord))
      && RegFits(cfg, Base(cfg, st), Current(st), st.block.todo, st.block.reg)
      && st.svc == Partial(cfg, Base(cfg, st), Current(st), st.block.todo, st.block.reg)
    else st.svc == Fold(cfg, st.history)
  }

  lemma AppendMore(s: ServiceState, mgr: Addr, it: Item, n: nat)
    ensures AppendCopies(s, mgr, it, 0) == s
    ensures AppendCopies(s, mgr, it, n + 1) == AppendPast(AppendCopies(s, mgr, it, n), mgr, it)
  {
    if mgr in s.backlog {
      var b := s.backlog[mgr];
      assert b + Copies(it, 0) == b;
      assert b + Copies(it, n + 1) == b + Copies(it, n) + [it];
      assert s.backlog[mgr := b] == s.backlog;
      assert s.backlog[mgr := b + Copies(it, n)][mgr := b + Copies(it, n + 1)] ==
             s.backlog[mgr := b + Copies(it, n + 1)];
    }
  }

  lemma PartialStart(cfg: Config, base: ServiceState, e: Entry)
    requires cfg.Valid() && |base.listeners| > 0 && Shape(cfg, base)
    ensures Partial(cfg, base, e, Due(base.listeners, e.log, e.ord), None) == base
  {
    DueByKind(cfg, base, e.log, e.ord);
    var due := Due(base.listeners, e.log, e.ord);
    assert due - due == {};
    if !IsDeploy(cfg, e.log) && !IsRegistration(cfg, e.log) && IsNotify(cfg, e.log) && cfg.decodeMsg(e.log.data).Some? {
      AppendMore(base, e.log.addr, Ev(e.blk, cfg.decodeMsg(e.log.data).value), 0);
    }
  }

  lemma PartialEnd(cfg: Config, base: ServiceState, e: Entry)
    requires |base.listeners| > 0
    ensures Partial(cfg, base, e, {}, None) == Next(cfg, base, e)
  {}

  // Nothing of a malformed log is ever recorded, in whatever order its callbacks run.
  lemma PartialMalformed(cfg: Config, base: ServiceState, e: Entry, todo: set<nat>)
    requires cfg.Valid() && |base.listeners| > 0 && Shape(cfg, base) && Malformed(cfg, e.log)
    ensures Partial(cfg, base, e, todo, None) == base == Next(cfg, base, e)
  {
    DueByKind(cfg, base, e.log, e.ord);
  }

  lemma PartialDeploy(cfg: Config, base: ServiceState, e: Entry, todo: set<nat>, k: nat)
    requires cfg.Valid() && |base.listeners| > 0 && Shape(cfg, base)
    requires k in todo && todo <= Due(base.listeners, e.log, e.ord) && IsDeploy(cfg, e.log)
    ensures k == 0 && base.listeners[k].kind.Deploy?
    ensures Partial(cfg, base, e, todo, None) == base
    ensures Partial(cfg, base, e, todo - {k}, None) == OnDeploy(cfg, base, k, e.ord)
  {
    DueByKind(cfg, base, e.log, e.ord);
  }

  lemma PartialRegistration(cfg: Config, base: ServiceState, e: Entry, todo: set<nat>, k: nat)
    requires cfg.Valid() && |base.listeners| > 0 && Shape(cfg, base)
    requires k in todo && todo <= Due(base.listeners, e.log, e.ord) && IsRegistration(cfg, e.log)
    ensures k == 1 && base.listeners[k].kind.Registration? && RegActive(base, e.ord)
    ensures Partial(cfg, base, e, todo, None) == base
  {
    DueByKind(cfg, base, e.log, e.ord);
  }

  // The branch for an event manager without a queue is never taken.
  lemma PastHasQueue(cfg: Config, base: ServiceState, e: Entry, k: nat)
    requires cfg.Valid() && |base.listeners| > 0 && Shape(cfg, base)
    requires k in Due(base.listeners, e.log, e.ord) && IsNotify(cfg, e.log)
    ensures base.listeners[k].kind.Past? && base.listeners[k].addr == e.log.addr && e.log.addr in base.backlog
    ensures !IsDeploy(cfg, e.log) && !IsRegistration(cfg, e.log)
  {
    DueByKind(cfg, base, e.log, e.ord);
  }

  lemma PartialPast(cfg: Config, base: ServiceState, e: Entry, todo: set<nat>, k: nat)
    requires |base.listeners| > 0 && k in todo && todo <= Due(base.listeners, e.log, e.ord)
    requires !IsDeploy(cfg, e.log) && !IsRegistration(cfg, e.log) && IsNotify(cfg, e.log)
    requires cfg.decodeMsg(e.log.data).Some?
    ensures Partial(cfg, base, e, todo, None).listeners == base.listeners
    ensures Partial(cfg, base, e, todo, None).backlog.Keys == base.backlog.Keys
    ensures Partial(cfg, base, e, todo - {k}, None) ==
            AppendPast(Partial(cfg, base, e, todo, None), e.log.addr, Ev(e.blk, cfg.decodeMsg(e.log.data).value))
  {
    var due := Due(base.listeners, e.log, e.ord);
    var it, n := Ev(e.blk, cfg.decodeMsg(e.log.data).value), |due - todo|;
    assert due - (todo - {k}) == (due - todo) + {k};
    assert |due - (todo - {k})| == n + 1;
    assert Partial(cfg, base, e, todo, None) == AppendCopies(base, e.log.addr, it, n);
    AppendMore(base, e.log.addr, it, n);
  }

  // Every owed callback is of the kind the log is for.
  lemma CallbackKind(cfg: Config, base: ServiceState, e: Entry, k: nat)
    requires cfg.Valid() && |base.listeners| > 0 && Shape(cfg, base)
    requires k in Due(base.listeners, e.log, e.ord)
    ensures IsDeploy(cfg, e.log) || IsRegistration(cfg, e.log) || IsNotify(cfg, e.log)
  {
    DueByKind(cfg, base, e.log, e.ord);
  }

  lemma DeployCallback(cfg: Config, st: State, k: nat)
    requires cfg.Valid() && ServiceInv(cfg, st) && DispatchEnabled(cfg, st, CallService(k))
    requires IsDeploy(cfg, Current(st).log) || IsRegistration(cfg, Current(st).log)
    ensures ServiceInv(cfg, RunCallback(cfg, st, k))
  {
    var base, e := Base(cfg, st), Current(st);
    FoldShape(cfg, st.history[..|st.history| - 1]);
    DueByKind(cfg, base, e.log, e.ord);
    if IsDeploy(cfg, e.log) {
      PartialDeploy(cfg, base, e, st.block.todo, k);
    } else {
      PartialRegistration(cfg, base, e, st.block.todo, k);
    }
  }

  lemma PastFound(cfg: Config, st: State, k: nat)
    requires cfg.Valid() && ServiceInv(cfg, st) && DispatchEnabled(cfg, st, CallService(k))
    requires IsNotify(cfg, Current(st).log)
    ensures st.svc.listeners[k].kind.Past? && Current(st).log.addr in st.svc.backlog
    ensures cfg.decodeMsg(Current(st).log.data).Some? && !Malformed(cfg, Current(st).log)
    ensures !IsDeploy(cfg, Current(st).log) && !IsRegistration(cfg, Current(st).log)
  {
    var base, e := Base(cfg, st), Current(st);
    FoldShape(cfg, st.history[..|st.history| - 1]);
    PastHasQueue(cfg, base, e, k);
    if cfg.decodeMsg(e.log.data).Some? {
      PartialPast(cfg, base, e, st.block.todo, k);
    }
  }

  lemma PastCallback(cfg: Config, st: State, k: nat)
    requires cfg.Valid() && ServiceInv(cfg, st) && DispatchEnabled(cfg, st, CallService(k))
    requires IsNotify(cfg, Current(st).log)
    ensures ServiceInv(cfg, RunCallback(cfg, st, k))
  {
    PastFound(cfg, st, k);
    PartialPast(cfg, Base(cfg, st), Current(st), st.block.todo, k);
  }

  lemma ServiceCallback(cfg: Config, st: State, k: nat)
    requires cfg.Valid() && ServiceInv(cfg, st) && DispatchEnabled(cfg, st, CallService(k))
    ensures ServiceInv(cfg, RunCallback(cfg, st, k))
  {
    FoldShape(cfg, st.history[..|st.history| - 1]);
    CallbackKind(cfg, Base(cfg, st), Current(st), k);
    if IsNotify(cfg, Current(st).log) {
      PastCallback(cfg, st, k);
    } else {
      DeployCallback(cfg, st, k);
    }
  }

  lemma ServiceThrow(cfg: Config, st: State, k: nat)
    requires cfg.Valid() && ServiceInv(cfg, st) && DispatchEnabled(cfg, st, ThrowService(k))
    ensures Malformed(cfg, Current(st).log)
    ensures ServiceInv(cfg, DispatchDo(cfg, st, ThrowService(k)))
  {
    var base, e := Base(cfg, st), Current(st);
    FoldShape(cfg, st.history[..|st.history| - 1]);
    CallbackKind(cfg, base, e, k);
    DueByKind(cfg, base, e.log, e.ord);
    if IsDeploy(cfg, e.log) {
      PartialDeploy(cfg, base, e, st.block.todo, k);
      assert false;
    } else if IsRegistration(cfg, e.log) {
      PartialRegistration(cfg, base, e, st.block.todo, k);
    }
    PartialMalformed(cfg, base, e, st.block.todo);
  }

  // A session throws only on a notify log.
  ghost predicate OwedInv(cfg: Config, st: State) {
    && Wf(st)
    && (forall s | s in st.sessions && st.sessions[s].filter.want.Pubsub? ::
          st.sessions[s].filter.topics == [cfg.notifyTopic])
    && (st.block.Dispatching? ==> forall s | s in Owed(st) ::
          && s in st.sessions && Listening(st.sessions[s])
          && Wanted(st.sessions[s].filter, |st.history| - 1, Current(st).log))
  }

  lemma SessionThrow(cfg: Config, st: State, s: nat)
    requires cfg.Valid() && ServiceInv(cfg, st) && OwedInv(cfg, st) && DispatchEnabled(cfg, st, ThrowSession(s))
    ensures Malformed(cfg, Current(st).log)
    ensures ServiceInv(cfg, DispatchDo(cfg, st, ThrowSession(s)))
  {
    FoldShape(cfg, st.history[..|st.history| - 1]);
    PartialMalformed(cfg, Base(cfg, st), Current(st), st.block.todo);
  }

  // The registration callback's steps: what they do to the partial state, and what is left to do.
  lemma PartialRegStep(cfg: Config, base: ServiceState, e: Entry, todo: set<nat>, r: Registering,
                       after: Option<Registering>)
    requires |base.listeners| > 0 && RegFits(cfg, base, e, todo, Some(r))
    requires after == if r.stage == 2 then None else Some(r.(stage := r.stage + 1))
    ensures RegFits(cfg, base, e, todo, after)
    ensures var now := Partial(cfg, base, e, todo, Some(r));
            Partial(cfg, base, e, todo, after) ==
            if r.stage == 0 then WriteMap(now, r.pub, r.mgr)
            else if r.stage == 1 then Emplace(now, r.mgr)
            else ListenPast(cfg, now, r.mgr, e.ord)
  {}

  lemma RegistrationStepShape(cfg: Config, st: State)
    requires DispatchEnabled(cfg, st, RegStep) && st.block.reg.value.stage <= 2
    ensures var t, r := RegistrationStep(cfg, st), st.block.reg.value;
            && t.history == st.history && t.missed == st.missed && |t.svc.listeners| > 0
            && t.block == st.block.(reg := if r.stage == 2 then None else Some(r.(stage := r.stage + 1)))
            && t.svc == if r.stage == 0 then WriteMap(st.svc, r.pub, r.mgr)
                        else if r.stage == 1 then Emplace(st.svc, r.mgr)
                        else ListenPast(cfg, st.svc, r.mgr, Current(st).ord)
  {}

  lemma ServiceRegStep(cfg: Config, st: State)
    requires ServiceInv(cfg, st) && DispatchEnabled(cfg, st, RegStep)
    ensures ServiceInv(cfg, RegistrationStep(cfg, st))
  {
    RegistrationStepShape(cfg, st);
    PartialRegStep(cfg, Base(cfg, st), Current(st), st.block.todo, st.block.reg.value,
                   RegistrationStep(cfg, st).block.reg);
  }

  lemma ServiceLogBounds(cfg: Config, st: State, d: DispatchStep)
    requires cfg.Valid() && ServiceInv(cfg, st) && DispatchEnabled(cfg, st, d)
    requires d.BeginLog? || d.EndLog?
    ensures ServiceInv(cfg, DispatchDo(cfg, st, d))
  {
    if d.BeginLog? {
      var e := Entry(st.block.num, st.ord, st.block.rest[0]);
      FoldShape(cfg, st.history);
      PartialStart(cfg, st.svc, e);
      assert (st.history + [e])[..|st.history|] == st.history;
    } else {
      PartialEnd(cfg, Base(cfg, st), Current(st));
    }
  }

  lemma ServiceDispatch(cfg: Config, st: State, d: DispatchStep)
    requires cfg.Valid() && ServiceInv(cfg, st) && OwedInv(cfg, st) && DispatchEnabled(cfg, st, d)
    ensures ServiceInv(cfg, DispatchDo(cfg, st, d))
  {
    match d
    case CallService(k) => ServiceCallback(cfg, st, k);
    case ThrowService(k) => ServiceThrow(cfg, st, k);
    case ThrowSession(s) => SessionThrow(cfg, st, s);
    case RegStep => ServiceRegStep(cfg, st);
    case CallSession(s) =>
    case BeginLog => ServiceLogBounds(cfg, st, d);
    case EndLog => ServiceLogBounds(cfg, st, d);
  }

  // Only a callback touches the service.
  lemma ServiceHost(cfg: Config, st: State, h: HostStep)
    requires ServiceInv(cfg, st) && HostEnabled(st, h)
    ensures ServiceInv(cfg, HostDo(st, h))
  {}

  lemma ServiceClient(cfg: Config, st: State, s: nat, step: ClientStep)
    requires ServiceInv(cfg, st) && ClientEnabled(st, s, step)
    ensures ServiceInv(cfg, SetSession(cfg, st, s, step))
  {}
}

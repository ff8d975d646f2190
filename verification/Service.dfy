/** The subscriber service as values: its store, the listeners it owns, what each event handler does
    to them, and the service as a fold over the dispatched logs. */
module Service {
  import opened Eth
  import opened Abi

  // decodeMsg is the library's parser of a notification's ABI bytes: None where it throws.
  // seesRest says whether a listener installed by a callback already sees the later logs of the
  // block being processed, which the event manager's code (not part of this model) decides.
  datatype Config = Config(pubsub: Addr, deployTopic: Topic, regTopic: Topic, notifyTopic: Topic,
                           decodeMsg: Bytes -> Option<Bytes>, seesRest: bool)
  {
    // The topics are hashes of three different event signatures.
    predicate Valid() {
      deployTopic != regTopic && deployTopic != notifyTopic && regTopic != notifyTopic
    }
  }

  datatype Kind = Deploy | Registration | Past

  // sinceOrd: the ordinal of the first block whose logs the listener sees.
  datatype Listener = Listener(kind: Kind, addr: Addr, topics: seq<Topic>, sinceOrd: nat, cancelled: bool)

  // listeners: everything the service ever installed in the event manager, in order; a position is a
  // callback id.
  datatype ServiceState = ServiceState(deployed: bool, mgrOf: map<Bytes, Addr>,
                                       backlog: map<Addr, seq<Item>>, listeners: seq<Listener>)

  predicate IsDeploy(cfg: Config, log: Log) {
    Matches(cfg.pubsub, [cfg.deployTopic, PadAddress(cfg.pubsub)], log)
  }

  predicate IsRegistration(cfg: Config, log: Log) {
    Matches(cfg.pubsub, [cfg.regTopic], log)
  }

  predicate IsNotify(cfg: Config, log: Log) {
    Matches(log.addr, [cfg.notifyTopic], log)
  }

  // The log's data makes the one parser that looks at it throw.
  predicate Malformed(cfg: Config, log: Log) {
    || (IsRegistration(cfg, log) && DecodeRegistration(log.data).None?)
    || (IsNotify(cfg, log) && cfg.decodeMsg(log.data).None?)
  }

  // A service callback of this kind throws on the log.
  predicate ServiceThrows(cfg: Config, kind: Kind, log: Log) {
    || (kind.Registration? && DecodeRegistration(log.data).None?)
    || (kind.Past? && cfg.decodeMsg(log.data).None?)
  }

  function CallbackSince(cfg: Config, ord: nat): nat {
    if cfg.seesRest then ord else ord + 1
  }

  function DeployListener(cfg: Config): Listener {
    Listener(Deploy, cfg.pubsub, [cfg.deployTopic, PadAddress(cfg.pubsub)], 0, false)
  }

  function RegListener(cfg: Config, since: nat): Listener {
    Listener(Registration, cfg.pubsub, [cfg.regTopic], since, false)
  }

  function PastListener(cfg: Config, mgr: Addr, since: nat): Listener {
    Listener(Past, mgr, [cfg.notifyTopic], since, false)
  }

  predicate Active(l: Listener, ord: nat) {
    !l.cancelled && l.sinceOrd <= ord
  }

  // The callbacks the event manager owes the service for a log.
  function Due(ls: seq<Listener>, log: Log, ord: nat): set<nat> {
    set k: nat | k < |ls| && Active(ls[k], ord) && Matches(ls[k].addr, ls[k].topics, log)
  }

  function EventMgrOf(s: ServiceState, pub: Bytes): Addr {
    if pub in s.mgrOf then s.mgrOf[pub] else ZERO_ADDR
  }

  function PastOf(s: ServiceState, mgr: Addr): seq<Item> {
    if mgr in s.backlog then s.backlog[mgr] else []
  }

  // ----- what the handlers do -----

  function Started(cfg: Config): ServiceState {
    ServiceState(false, map[], map[], [DeployListener(cfg)])
  }

  function OnDeploy(cfg: Config, s: ServiceState, k: nat, ord: nat): ServiceState
    requires k < |s.listeners|
  {
    s.(deployed := true,
       listeners := s.listeners[k := s.listeners[k].(cancelled := true)] + [RegListener(cfg, CallbackSince(cfg, ord))])
  }

  // A registration is three separate steps.
  function WriteMap(s: ServiceState, pub: Bytes, mgr: Addr): ServiceState {
    s.(mgrOf := s.mgrOf[pub := mgr])
  }

  function Emplace(s: ServiceState, mgr: Addr): ServiceState {
    if mgr in s.backlog then s else s.(backlog := s.backlog[mgr := []])
  }

  function ListenPast(cfg: Config, s: ServiceState, mgr: Addr, ord: nat): ServiceState {
    s.(listeners := s.listeners + [PastListener(cfg, mgr, CallbackSince(cfg, ord))])
  }

  function OnRegistration(cfg: Config, s: ServiceState, pub: Bytes, mgr: Addr, ord: nat): ServiceState {
    ListenPast(cfg, Emplace(WriteMap(s, pub, mgr), mgr), mgr, ord)
  }

  // One past-event callback; without a queue for the event manager it only logs an error.
  function AppendPast(s: ServiceState, mgr: Addr, it: Item): ServiceState {
    if mgr in s.backlog then s.(backlog := s.backlog[mgr := s.backlog[mgr] + [it]]) else s
  }

  function Copies(it: Item, n: nat): (r: seq<Item>)
    ensures |r| == n && forall i | 0 <= i < n :: r[i] == it
  {
    seq(n, _ => it)
  }

  function AppendCopies(s: ServiceState, mgr: Addr, it: Item, n: nat): ServiceState {
    if mgr in s.backlog then s.(backlog := s.backlog[mgr := s.backlog[mgr] + Copies(it, n)]) else s
  }

  // ----- the service as a fold over the dispatched logs -----

  predicate RegActive(s: ServiceState, ord: nat) {
    |s.listeners| > 1 && Active(s.listeners[1], ord)
  }

  function Next(cfg: Config, s: ServiceState, e: Entry): ServiceState
    requires |s.listeners| > 0
  {
    if IsDeploy(cfg, e.log) then
      if s.deployed then s else OnDeploy(cfg, s, 0, e.ord)
    else if IsRegistration(cfg, e.log) then
      if !RegActive(s, e.ord) then s else
      match DecodeRegistration(e.log.data)
      case None => s
      case Some(r) => OnRegistration(cfg, s, r.pub, r.mgr, e.ord)
    else if IsNotify(cfg, e.log) then
      match cfg.decodeMsg(e.log.data)
      case None => s
      case Some(msg) => AppendCopies(s, e.log.addr, Ev(e.blk, msg), |Due(s.listeners, e.log, e.ord)|)
    else s
  }

  function Fold(cfg: Config, h: seq<Entry>): (s: ServiceState)
    ensures |s.listeners| > 0
  {
    if h == [] then Started(cfg) else Next(cfg, Fold(cfg, h[..|h| - 1]), h[|h| - 1])
  }

  // ----- the shape of the listener table -----

  // Before deployment the service owns the deploy listener and nothing else; afterwards that one is
  // cancelled, one registration listener is live, and the others are past listeners, each on an event
  // manager that has a backlog queue.
  ghost predicate Shape(cfg: Config, s: ServiceState) {
    if !s.deployed then s == Started(cfg) else
    && |s.listeners| > 1
    && s.listeners[0] == DeployListener(cfg).(cancelled := true)
    && s.listeners[1] == RegListener(cfg, s.listeners[1].sinceOrd)
    && (forall k | 2 <= k < |s.listeners| ::
          && s.listeners[k] == PastListener(cfg, s.listeners[k].addr, s.listeners[k].sinceOrd)
          && s.listeners[k].addr in s.backlog)
    && (forall p | p in s.mgrOf :: s.mgrOf[p] in s.backlog)
    && (forall a | a in s.backlog :: exists k :: 2 <= k < |s.listeners| && s.listeners[k].addr == a)
  }

  lemma RegistrationKeepsShape(cfg: Config, s: ServiceState, pub: Bytes, mgr: Addr, ord: nat)
    requires s.deployed && Shape(cfg, s)
    ensures Shape(cfg, OnRegistration(cfg, s, pub, mgr, ord))
  {
    var t := OnRegistration(cfg, s, pub, mgr, ord);
    assert forall k | 0 <= k < |s.listeners| :: t.listeners[k] == s.listeners[k];
    forall a | a in t.backlog ensures exists k :: 2 <= k < |t.listeners| && t.listeners[k].addr == a {
      if a in s.backlog {
        var k :| 2 <= k < |s.listeners| && s.listeners[k].addr == a;
        assert t.listeners[k].addr == a;
      } else {
        assert t.listeners[|s.listeners|].addr == a;
      }
    }
  }

  lemma NextKeepsShape(cfg: Config, s: ServiceState, e: Entry)
    requires |s.listeners| > 0 && Shape(cfg, s)
    ensures Shape(cfg, Next(cfg, s, e))
  {
    if !IsDeploy(cfg, e.log) && IsRegistration(cfg, e.log) && RegActive(s, e.ord) {
      var r := DecodeRegistration(e.log.data);
      if r.Some? {
        RegistrationKeepsShape(cfg, s, r.value.pub, r.value.mgr, e.ord);
      }
    }
  }

  lemma NextGrows(cfg: Config, s: ServiceState, e: Entry, mgr: Addr)
    requires |s.listeners| > 0
    ensures s.deployed ==> Next(cfg, s, e).deployed && s.listeners <= Next(cfg, s, e).listeners
    ensures s.backlog.Keys <= Next(cfg, s, e).backlog.Keys
    ensures PastOf(s, mgr) <= PastOf(Next(cfg, s, e), mgr)
  {}

  lemma {:induction false} FoldShape(cfg: Config, h: seq<Entry>)
    ensures Shape(cfg, Fold(cfg, h))
  {
    if h != [] {
      FoldShape(cfg, h[..|h| - 1]);
      NextKeepsShape(cfg, Fold(cfg, h[..|h| - 1]), h[|h| - 1]);
    }
  }

  // The past listeners of one event manager that see a block.
  function PastDue(ls: seq<Listener>, mgr: Addr, ord: nat): set<nat> {
    set k: nat | k < |ls| && ls[k].kind.Past? && ls[k].addr == mgr && Active(ls[k], ord)
  }

  // Which callbacks a log causes, by what the log is.
  lemma DueByKind(cfg: Config, s: ServiceState, log: Log, ord: nat)
    requires cfg.Valid() && |s.listeners| > 0 && Shape(cfg, s)
    ensures IsDeploy(cfg, log) ==> Due(s.listeners, log, ord) == if s.deployed then {} else {0}
    ensures IsRegistration(cfg, log) ==> !IsDeploy(cfg, log)
    ensures IsRegistration(cfg, log) ==> Due(s.listeners, log, ord) == if RegActive(s, ord) then {1} else {}
    ensures IsNotify(cfg, log) ==> !IsDeploy(cfg, log) && !IsRegistration(cfg, log)
    ensures IsNotify(cfg, log) ==> Due(s.listeners, log, ord) == PastDue(s.listeners, log.addr, ord)
    ensures !IsDeploy(cfg, log) && !IsRegistration(cfg, log) && !IsNotify(cfg, log) ==>
              Due(s.listeners, log, ord) == {}
  {
    FirstTopic(cfg, log);
    forall k | k in Due(s.listeners, log, ord) ensures k < 2 || IsNotify(cfg, log) {}
  }

  lemma FirstTopic(cfg: Config, log: Log)
    ensures IsDeploy(cfg, log) ==> |log.topics| > 0 && log.topics[0] == cfg.deployTopic
    ensures IsRegistration(cfg, log) ==> |log.topics| > 0 && log.topics[0] == cfg.regTopic
    ensures IsNotify(cfg, log) ==> |log.topics| > 0 && log.topics[0] == cfg.notifyTopic
  {}
}

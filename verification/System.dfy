/** The enclave and its pusher as a transition system. Every action is one atomic step of one of three
    kinds of thread: the pushing thread, a subscription thread, the heartbeat thread. A run is any
    interleaving of enabled actions.

    The monitor mutex is held from Begin to End, so only Between and Dispatching blocks exclude the
    readers of the block number. The event manager runs the callbacks of one log in any order, one at a
    time; a subscription's Listen and a heartbeat's Cancel wait for the log being dispatched. */
module System {
  import opened Eth
  import opened Abi
  import opened Service
  import opened Sessions
  import opened Pusher

  // A registration callback under way: steps of it already done.
  datatype Registering = Registering(pub: Addr, mgr: Addr, stage: nat)

  // todo: the service callbacks still owed for the log being dispatched.
  datatype Block =
    | Idle
    | Between(num: nat, rest: seq<Log>)
    | Dispatching(num: nat, rest: seq<Log>, todo: set<nat>, reg: Option<Registering>)

  // pushed: the numbers of the headers that went through. honest: so far Geth has answered with the
  // header it was asked for, below the largest height.
  // smooth: so far no block's processing has thrown once its header was validated.
  datatype Push = Push(start: BlockNumber, cursor: BlockNumber, inHand: Option<nat>, pushed: seq<nat>,
                       honest: bool, smooth: bool)

  // history and missed grow together, one element per dispatched log. ordered and strict record
  // whether block numbers never fell, and always rose, from one processed block to the next.
  datatype State = State(svc: ServiceState, last: BlkNum, ord: nat, block: Block, sessions: map<nat, Session>,
                         history: seq<Entry>, missed: seq<set<nat>>, ordered: bool, strict: bool, push: Push)

  // The steps of a subscription thread, then those of the heartbeat thread.
  datatype ClientStep =
    | Lookup(pub: Bytes)
    | Listen
    | ReadHelloNumber
    | ReadPast
    | Respond(ok: bool)
    | SubscribeReceipts(addr: Addr, topics: seq<Topic>)
    | DrainQueue
    | ReadNumber
    | Send
    | Fail
    | CancelListener

  // The steps of the pushing thread outside and around a block.
  datatype HostStep =
    | Fetch(geth: Geth)       // ask Geth for the block at the cursor
    | Reject                  // the monitor throws before it validates the header
    | Begin(logs: seq<Log>)   // the header is validated; logs is what its receipts hold
    | End(ok: bool)           // ok: the call returns; otherwise it throws after the last log

  // The steps of the pushing thread inside a block.
  datatype DispatchStep =
    | BeginLog
    | CallService(k: nat)     // the k-th service listener's callback runs (a registration: begins)
    | RegStep                 // the next step of the registration callback
    | CallSession(s: nat)
    | ThrowService(k: nat)
    | ThrowSession(s: nat)
    | EndLog

  datatype Action = Host(h: HostStep) | Dispatch(d: DispatchStep) | Client(s: nat, step: ClientStep)

  function Init(cfg: Config, start: BlockNumber): State {
    State(Started(cfg), NoBlk, 0, Idle, map[], [], [], true, true, Push(start, start, None, [], true, true))
  }

  function DueSessions(sessions: map<nat, Session>, log: Log): set<nat> {
    set s | s in sessions && Listening(sessions[s]) && Matches(sessions[s].filter.addr, sessions[s].filter.topics, log)
  }

  // The log being dispatched and the sessions whose callback is still owed.
  predicate Wf(st: State) {
    && |st.missed| == |st.history|
    && (st.block.Dispatching? ==> |st.history| > 0)
    && |st.svc.listeners| > 0
  }

  function Current(st: State): Entry
    requires Wf(st) && st.block.Dispatching?
  {
    st.history[|st.history| - 1]
  }

  function Owed(st: State): set<nat>
    requires Wf(st) && st.block.Dispatching?
  {
    st.missed[|st.history| - 1]
  }

  // A pub/sub callback throws on a message the parser rejects.
  predicate SessionThrows(cfg: Config, want: Want, log: Log) {
    want.Pubsub? && cfg.decodeMsg(log.data).None?
  }

  predicate HostEnabled(st: State, h: HostStep) {
    match h
    case Fetch(_) => st.push.inHand.None? && st.block.Idle?
    case Reject => st.push.inHand.Some? && st.block.Idle?
    case Begin(_) => st.push.inHand.Some? && st.block.Idle?
    case End(_) => st.push.inHand.Some? && st.block.Between? && st.block.rest == []
  }

  predicate DispatchEnabled(cfg: Config, st: State, d: DispatchStep) {
    Wf(st) &&
    if d.BeginLog? then st.block.Between? && st.block.rest != [] else
    st.block.Dispatching? && (d.RegStep? <==> st.block.reg.Some?) && CallbackEnabled(cfg, st, d)
  }

  predicate CallbackEnabled(cfg: Config, st: State, d: DispatchStep)
    requires Wf(st) && st.block.Dispatching?
  {
    match d
    case CallService(k) =>
      k in st.block.todo && k < |st.svc.listeners| && !ServiceThrows(cfg, st.svc.listeners[k].kind, Current(st).log)
    case CallSession(s) =>
      s in Owed(st) && s in st.sessions && !SessionThrows(cfg, st.sessions[s].filter.want, Current(st).log)
    case ThrowService(k) =>
      k in st.block.todo && k < |st.svc.listeners| && ServiceThrows(cfg, st.svc.listeners[k].kind, Current(st).log)
    case ThrowSession(s) =>
      s in Owed(st) && s in st.sessions && SessionThrows(cfg, st.sessions[s].filter.want, Current(st).log)
    case EndLog => st.block.todo == {} && Owed(st) == {}
    case _ => true
  }

  predicate ClientEnabled(st: State, s: nat, step: ClientStep) {
    match step
    case Lookup(pub) => s !in st.sessions && EventMgrOf(st.svc, pub) != ZERO_ADDR
    case SubscribeReceipts(_, _) => s !in st.sessions && !st.block.Dispatching?
    case _ => s in st.sessions && PhaseAllows(st, st.sessions[s].phase, step)
  }

  predicate PhaseAllows(st: State, p: Phase, step: ClientStep) {
    match step
    case Listen => p.LookedUp? && !st.block.Dispatching?
    case ReadHelloNumber => p.Responding? && p.num.None? && st.block.Idle?
    case ReadPast => p.Responding? && p.past.None?
    case Respond(_) => p.Responding? && p.num.Some? && p.past.Some?
    case DrainQueue => p.Waiting?
    case ReadNumber => p.Drained? && st.block.Idle?
    case Send => p.Numbered?
    case Fail => p.Drained? || p.Numbered?
    case CancelListener => p.Failing? && !st.block.Dispatching?
    case _ => false
  }

  // The session after one of its own steps.
  function ClientDo(cfg: Config, st: State, s: nat, step: ClientStep): Session
    requires ClientEnabled(st, s, step)
  {
    match step
    case Lookup(pub) => Looked(pub, EventMgrOf(st.svc, pub), cfg.notifyTopic, |st.history|, st.block.Dispatching?)
    case Listen => Listened(st.sessions[s], |st.history|, |PastOf(st.svc, st.sessions[s].filter.addr)|)
    case ReadHelloNumber =>
      HelloNumber(st.sessions[s], st.last, |PastOf(st.svc, st.sessions[s].filter.addr)|)
    case ReadPast => HelloPast(st.sessions[s], PastOf(st.svc, st.sessions[s].filter.addr))
    case Respond(ok) => Greeted(st.sessions[s], ok)
    case SubscribeReceipts(addr, topics) => ReceiptSession(addr, topics, |st.history|)
    case DrainQueue => Drain(st.sessions[s])
    case ReadNumber => Number(st.sessions[s], st.last)
    case Send => Sent(st.sessions[s])
    case Fail => Failed(st.sessions[s])
    case CancelListener => Cancel(st.sessions[s], |st.history|)
  }

  // Leaving a block; only a normal return moves the pusher's cursor and counts the header as pushed.
  function Leave(st: State, ok: bool): State
    requires ok ==> st.push.inHand.Some?
  {
    var p := st.push;
    st.(block := Idle,
        push := if ok
                then p.(cursor := Bump(p.cursor), inHand := None, pushed := p.pushed + [p.inHand.value])
                else p.(inHand := None, smooth := p.smooth && st.block.Idle?))
  }

  function HostDo(st: State, h: HostStep): State
    requires HostEnabled(st, h)
  {
    match h
    case Fetch(g) =>
      var header := InHand(st.push.cursor, g);
      if header.None? then st else
      st.(push := st.push.(inHand := header,
                           honest := st.push.honest && header.value == st.push.cursor && g.height + 1 < TWO_TO_THE_64))
    case Reject => Leave(st, false)
    case Begin(logs) =>
      var num := st.push.inHand.value;
      st.(last := Blk(num), ord := st.ord + 1, block := Between(num, logs),
          ordered := st.ordered && (st.last.Blk? ==> st.last.n <= num),
          strict := st.strict && (st.last.Blk? ==> st.last.n < num))
    case End(ok) => Leave(st, ok)
  }

  function StartLog(st: State): State
    requires st.block.Between? && st.block.rest != []
  {
    var log := st.block.rest[0];
    st.(history := st.history + [Entry(st.block.num, st.ord, log)],
        missed := st.missed + [DueSessions(st.sessions, log)],
        block := Dispatching(st.block.num, st.block.rest[1..], Due(st.svc.listeners, log, st.ord), None))
  }

  function RunCallback(cfg: Config, st: State, k: nat): State
    requires DispatchEnabled(cfg, st, CallService(k))
  {
    var e := Current(st);
    var done := st.(block := st.block.(todo := st.block.todo - {k}));
    match st.svc.listeners[k].kind
    case Deploy => done.(svc := OnDeploy(cfg, st.svc, k, e.ord))
    case Past => done.(svc := AppendPast(st.svc, e.log.addr, Ev(e.blk, cfg.decodeMsg(e.log.data).value)))
    case Registration =>
      var r := DecodeRegistration(e.log.data).value;
      done.(block := done.block.(reg := Some(Registering(r.pub, r.mgr, 0))))
  }

  // The registration callback's three steps, each visible to the other threads.
  function RegistrationStep(cfg: Config, st: State): State
    requires DispatchEnabled(cfg, st, RegStep)
  {
    var r := st.block.reg.value;
    if r.stage == 0 then
      st.(svc := WriteMap(st.svc, r.pub, r.mgr), block := st.block.(reg := Some(r.(stage := 1))))
    else if r.stage == 1 then
      st.(svc := Emplace(st.svc, r.mgr), block := st.block.(reg := Some(r.(stage := 2))))
    else
      st.(svc := ListenPast(cfg, st.svc, r.mgr, Current(st).ord), block := st.block.(reg := None))
  }

  function RunSession(cfg: Config, st: State, s: nat): State
    requires DispatchEnabled(cfg, st, CallSession(s))
  {
    st.(sessions := st.sessions[s := Delivered(st.sessions[s], Items(cfg, st.sessions[s].filter.want, Current(st)))],
        missed := st.missed[|st.history| - 1 := Owed(st) - {s}])
  }

  function DispatchDo(cfg: Config, st: State, d: DispatchStep): State
    requires DispatchEnabled(cfg, st, d)
  {
    match d
    case BeginLog => StartLog(st)
    case CallService(k) => RunCallback(cfg, st, k)
    case RegStep => RegistrationStep(cfg, st)
    case CallSession(s) => RunSession(cfg, st, s)
    case ThrowService(_) => Leave(st, false)
    case ThrowSession(_) => Leave(st, false)
    case EndLog => st.(block := Between(st.block.num, st.block.rest))
  }

  function SetSession(cfg: Config, st: State, s: nat, step: ClientStep): State
    requires ClientEnabled(st, s, step)
  {
    st.(sessions := st.sessions[s := ClientDo(cfg, st, s, step)])
  }

  predicate Enabled(cfg: Config, st: State, a: Action) {
    match a
    case Host(h) => HostEnabled(st, h)
    case Dispatch(d) => DispatchEnabled(cfg, st, d)
    case Client(s, step) => ClientEnabled(st, s, step)
  }

  function Do(cfg: Config, st: State, a: Action): State
    requires Enabled(cfg, st, a)
  {
    match a
    case Host(h) => HostDo(st, h)
    case Dispatch(d) => DispatchDo(cfg, st, d)
    case Client(s, step) => SetSession(cfg, st, s, step)
  }

  // The state after a run; None when some action was not possible when its turn came.
  function ExecFrom(cfg: Config, from: State, acts: seq<Action>): (r: Option<State>)
    requires Wf(from)
    ensures r.Some? ==> Wf(r.value)
  {
    if acts == [] then Some(from) else
    match ExecFrom(cfg, from, acts[..|acts| - 1])
    case None => None
    case Some(st) =>
      if !Enabled(cfg, st, acts[|acts| - 1]) then None else
      DoKeepsWf(cfg, st, acts[|acts| - 1]);
      Some(Do(cfg, st, acts[|acts| - 1]))
  }

  function Exec(cfg: Config, start: BlockNumber, acts: seq<Action>): (r: Option<State>)
    ensures r.Some? ==> Wf(r.value)
  {
    ExecFrom(cfg, Init(cfg, start), acts)
  }

  lemma DispatchKeepsWf(cfg: Config, st: State, d: DispatchStep)
    requires DispatchEnabled(cfg, st, d)
    ensures Wf(DispatchDo(cfg, st, d))
  {}

  lemma DoKeepsWf(cfg: Config, st: State, a: Action)
    requires Wf(st) && Enabled(cfg, st, a)
    ensures Wf(Do(cfg, st, a))
  {
    if a.Dispatch? {
      DispatchKeepsWf(cfg, st, a.d);
    }
  }

  // What the steps of dispatch leave alone.
  lemma DispatchFrame(cfg: Config, st: State, d: DispatchStep)
    requires DispatchEnabled(cfg, st, d)
    ensures !d.BeginLog? ==> DispatchDo(cfg, st, d).history == st.history
    ensures !d.BeginLog? && !d.CallSession? ==> DispatchDo(cfg, st, d).missed == st.missed
    ensures !d.CallSession? ==> DispatchDo(cfg, st, d).sessions == st.sessions
    ensures !d.CallService? && !d.RegStep? ==> DispatchDo(cfg, st, d).svc == st.svc
    ensures DispatchDo(cfg, st, d).last == st.last && DispatchDo(cfg, st, d).ord == st.ord
    ensures DispatchDo(cfg, st, d).ordered == st.ordered && DispatchDo(cfg, st, d).strict == st.strict
    ensures d.ThrowService? || d.ThrowSession? ==> DispatchDo(cfg, st, d) == Leave(st, false) && !st.block.Idle?
    ensures !d.ThrowService? && !d.ThrowSession? ==>
              DispatchDo(cfg, st, d).push == st.push && !DispatchDo(cfg, st, d).block.Idle?
  {}
}

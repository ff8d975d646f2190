/** When a run has a counterpart without a given subscriber: exactly when another one hears every log on
    which the subscriber's callback throws. */
module IsolationLimits {
  import opened Eth
  import opened Service
  import opened Pusher
  import opened System
  import opened Conservation
  import opened Numbers
  import opened Runs
  import opened Loss
  import opened Isolation

  // ----- the blocks that were begun but not ended -----

  predicate Begins(a: Action) {
    a.Host? && a.h.Begin?
  }

  predicate Ends(a: Action) {
    a.Host? && a.h.End?
  }

  // The number of blocks begun, which is the ordinal of the last one.
  function Begun(hosts: seq<Action>): nat {
    if hosts == [] then 0 else
    Begun(hosts[..|hosts| - 1]) + if Begins(hosts[|hosts| - 1]) then 1 else 0
  }

  // The ordinals of the blocks begun whose processing has not come to an End.
  function Unended(hosts: seq<Action>): set<nat> {
    if hosts == [] then {} else
    var before, a := hosts[..|hosts| - 1], hosts[|hosts| - 1];
    if Begins(a) then Unended(before) + {Begun(hosts)}
    else if Ends(a) then Unended(before) - {Begun(hosts)}
    else Unended(before)
  }

  // One more action of a run.
  function HostOf(a: Action): seq<Action> {
    if a.Host? then [a] else []
  }

  lemma UnendedStep(hosts: seq<Action>, a: Action)
    ensures Begun(hosts + HostOf(a)) == Begun(hosts) + if Begins(a) then 1 else 0
    ensures Unended(hosts + HostOf(a)) ==
            if Begins(a) then Unended(hosts) + {Begun(hosts) + 1}
            else if Ends(a) then Unended(hosts) - {Begun(hosts)}
            else Unended(hosts)
  {
    if a.Host? {
      UnendedPush(hosts, a);
    } else {
      assert hosts + [] == hosts;
    }
  }

  lemma UnendedPush(hosts: seq<Action>, a: Action)
    ensures Begun(hosts + [a]) == Begun(hosts) + if Begins(a) then 1 else 0
    ensures Unended(hosts + [a]) ==
            if Begins(a) then Unended(hosts) + {Begun(hosts) + 1}
            else if Ends(a) then Unended(hosts) - {Begun(hosts)}
            else Unended(hosts)
  {
    var more := hosts + [a];
    assert more[..|more| - 1] == hosts && more[|more| - 1] == a;
  }

  // ----- each of them, once it is over, was cut off by its last log -----

  predicate LastOfBlock(h: seq<Entry>, n: nat) {
    n < |h| && (n + 1 < |h| ==> h[n].ord < h[n + 1].ord)
  }

  ghost predicate CutOffAt(cfg: Config, st: State, ord: nat, n: nat) {
    LastOfBlock(st.history, n) && st.history[n].ord == ord && CutsOff(cfg, st.sessions, st.history, n)
  }

  predicate BlockOver(st: State, ord: nat) {
    ord < st.ord || (ord == st.ord && st.block.Idle?)
  }

  ghost predicate UnendedInv(cfg: Config, st: State, hosts: seq<Action>) {
    && st.ord == Begun(hosts)
    && (!st.block.Idle? ==> st.ord in Unended(hosts))
    && (forall o | o in Unended(hosts) :: o <= st.ord && (BlockOver(st, o) ==> exists n :: CutOffAt(cfg, st, o, n)))
  }

  // The last log of a block that is over stays the last.
  lemma LastStep(cfg: Config, st: State, a: Action, n: nat)
    requires BlockInv(st) && Enabled(cfg, st, a) && LastOfBlock(st.history, n) && BlockOver(st, st.history[n].ord)
    ensures LastOfBlock(Do(cfg, st, a).history, n) && Do(cfg, st, a).history[n] == st.history[n]
    ensures BlockOver(Do(cfg, st, a), st.history[n].ord)
  {
    if a.Dispatch? {
      DispatchFrame(cfg, st, a.d);
    }
  }

  lemma CutOffStep(cfg: Config, st: State, a: Action, ord: nat, n: nat)
    requires BlockInv(st) && AllConserved(cfg, st) && Enabled(cfg, st, a)
    requires CutOffAt(cfg, st, ord, n) && BlockOver(st, ord)
    ensures CutOffAt(cfg, Do(cfg, st, a), ord, n)
  {
    LastStep(cfg, st, a, n);
    CutsOffStep(cfg, st, a, n);
  }

  // A step leaves a block only by its End or by a throw, which cuts it off.
  lemma LeavesCutOff(cfg: Config, st: State, a: Action)
    requires cfg.Valid() && Reachable(cfg, st) && Enabled(cfg, st, a) && !a.Host? && !st.block.Idle?
    requires Do(cfg, st, a).block.Idle?
    ensures CutOffAt(cfg, Do(cfg, st, a), st.ord, |st.history| - 1)
  {
    LeavesByThrow(cfg, st, a);
    ReachableNumbers(cfg, st);
    ReachableService(cfg, st);
    ReachableConservation(cfg, st);
    ThrowCutsOff(cfg, st, a.d);
    DispatchFrame(cfg, st, a.d);
  }

  lemma UnendedKept(cfg: Config, st: State, a: Action, hosts: seq<Action>)
    requires cfg.Valid() && Reachable(cfg, st) && Enabled(cfg, st, a) && UnendedInv(cfg, st, hosts)
    ensures UnendedInv(cfg, Do(cfg, st, a), hosts + HostOf(a))
  {
    var st', hosts' := Do(cfg, st, a), hosts + HostOf(a);
    UnendedStep(hosts, a);
    OrdStep(cfg, st, a);
    forall o | o in Unended(hosts')
      ensures o <= st'.ord && (BlockOver(st', o) ==> exists n :: CutOffAt(cfg, st', o, n))
    {
      if BlockOver(st', o) {
        var n := StillCutOff(cfg, st, a, hosts, o);
      }
    }
  }

  lemma OrdStep(cfg: Config, st: State, a: Action)
    requires Enabled(cfg, st, a)
    ensures Do(cfg, st, a).ord == st.ord + if Begins(a) then 1 else 0
    ensures !Do(cfg, st, a).block.Idle? ==> Begins(a) || (!st.block.Idle? && !Ends(a))
    ensures Begins(a) ==> st.block.Idle? && !Do(cfg, st, a).block.Idle?
    ensures Ends(a) ==> !st.block.Idle? && Do(cfg, st, a).block.Idle?
    ensures a.Host? && !Begins(a) && !Ends(a) ==> st.block.Idle? && Do(cfg, st, a).block.Idle?
  {
    if a.Dispatch? {
      DispatchFrame(cfg, st, a.d);
    }
  }

  lemma StillCutOff(cfg: Config, st: State, a: Action, hosts: seq<Action>, o: nat) returns (n: nat)
    requires cfg.Valid() && Reachable(cfg, st) && Enabled(cfg, st, a) && UnendedInv(cfg, st, hosts)
    requires o in Unended(hosts + HostOf(a)) && BlockOver(Do(cfg, st, a), o)
    ensures CutOffAt(cfg, Do(cfg, st, a), o, n)
  {
    UnendedStep(hosts, a);
    OrdStep(cfg, st, a);
    if BlockOver(st, o) {
      ReachableNumbers(cfg, st);
      ReachableConservation(cfg, st);
      n :| CutOffAt(cfg, st, o, n);
      CutOffStep(cfg, st, a, o, n);
    } else {
      n := |st.history| - 1;
      LeavesCutOff(cfg, st, a);
    }
  }

  lemma {:induction false} UnendedCutOff(cfg: Config, start: BlockNumber, acts: seq<Action>)
    requires cfg.Valid() && Exec(cfg, start, acts).Some?
    ensures UnendedInv(cfg, Exec(cfg, start, acts).value, Hosts(acts))
  {
    if acts != [] {
      var before := acts[..|acts| - 1];
      UnendedCutOff(cfg, start, before);
      assert Reachable(cfg, Exec(cfg, start, before).value);
      UnendedKept(cfg, Exec(cfg, start, before).value, acts[|acts| - 1], Hosts(before));
    }
  }

  // ----- what a throw of one session leaves -----

  // Block ord was left without an End, and log n was its last.
  predicate LeftAt(st: State, hosts: seq<Action>, n: nat) {
    LastOfBlock(st.history, n) && BlockOver(st, st.history[n].ord) && st.history[n].ord in Unended(hosts)
  }

  lemma LeftStep(cfg: Config, st: State, a: Action, hosts: seq<Action>, n: nat)
    requires BlockInv(st) && Enabled(cfg, st, a) && st.ord == Begun(hosts) && LeftAt(st, hosts, n)
    ensures LeftAt(Do(cfg, st, a), hosts + HostOf(a), n)
  {
    UnendedStep(hosts, a);
    OrdStep(cfg, st, a);
    LastStep(cfg, st, a, n);
  }

  // The log on which session s threw at step i is the last of its block ever after; if some session but s
  // is found to hear it later, it heard it then.
  lemma {:induction false} ThrowLeaves(cfg: Config, start: BlockNumber, acts: seq<Action>, s: nat, i: nat)
      returns (n: nat)
    requires cfg.Valid() && Exec(cfg, start, acts).Some? && i < |acts| && acts[i] == Dispatch(ThrowSession(s))
    ensures Exec(cfg, start, acts[..i]).Some?
    ensures var at, now := Exec(cfg, start, acts[..i]).value, Exec(cfg, start, acts).value;
            && at.block.Dispatching? && LeftAt(now, Hosts(acts), n)
            && (CutsOff(cfg, now.sessions - {s}, now.history, n) ==> OthersHear(cfg, at, s))
  {
    var before, a := acts[..|acts| - 1], acts[|acts| - 1];
    var st := Exec(cfg, start, before).value;
    assert Reachable(cfg, st);
    UnendedCutOff(cfg, start, before);
    if i == |acts| - 1 {
      n := |st.history| - 1;
      ThrowLeavesNow(cfg, st, s, Hosts(before));
    } else {
      assert before[..i] == acts[..i];
      n := ThrowLeaves(cfg, start, before, s, i);
      ReachableNumbers(cfg, st);
      ReachableConservation(cfg, st);
      LeftStep(cfg, st, a, Hosts(before), n);
      CutsOffStepWithout(cfg, st, a, {s}, n);
    }
  }

  lemma ThrowLeavesNow(cfg: Config, st: State, s: nat, hosts: seq<Action>)
    requires cfg.Valid() && Reachable(cfg, st) && UnendedInv(cfg, st, hosts)
    requires DispatchEnabled(cfg, st, ThrowSession(s))
    ensures var now := DispatchDo(cfg, st, ThrowSession(s));
            && LeftAt(now, hosts + HostOf(Dispatch(ThrowSession(s))), |st.history| - 1)
            && (CutsOff(cfg, now.sessions - {s}, now.history, |st.history| - 1) ==> OthersHear(cfg, st, s))
  {
    ReachableNumbers(cfg, st);
    UnendedStep(hosts, Dispatch(ThrowSession(s)));
  }

  // ----- the exact condition -----

  lemma LastUnique(h: seq<Entry>, n: nat, m: nat)
    requires forall i, j | 0 <= i <= j < |h| :: h[i].ord <= h[j].ord
    requires LastOfBlock(h, n) && LastOfBlock(h, m) && h[n].ord == h[m].ord
    ensures n == m
  {}

  // Without session s, on the same blocks, everybody else ends where they end in the run.
  ghost predicate Counterpart(cfg: Config, start: BlockNumber, acts: seq<Action>, s: nat, b: seq<Action>)
    requires Exec(cfg, start, acts).Some?
  {
    Exec(cfg, start, b) == Some(Erase(Exec(cfg, start, acts).value, s)) && Hosts(b) == Hosts(acts)
  }

  // The counterpart left the same block at the same log, so somebody but s threw on it.
  lemma CounterpartShares(cfg: Config, start: BlockNumber, acts: seq<Action>, s: nat, b: seq<Action>, i: nat)
    requires cfg.Valid() && Exec(cfg, start, acts).Some? && Counterpart(cfg, start, acts, s, b)
    requires i < |acts| && acts[i] == Dispatch(ThrowSession(s))
    ensures Exec(cfg, start, acts[..i]).Some?
    ensures var st := Exec(cfg, start, acts[..i]).value; st.block.Dispatching? && OthersHear(cfg, st, s)
  {
    var st, u := Exec(cfg, start, acts).value, Exec(cfg, start, b).value;
    var n := ThrowLeaves(cfg, start, acts, s, i);
    UnendedCutOff(cfg, start, b);
    var m :| CutOffAt(cfg, u, st.history[n].ord, m);
    assert Reachable(cfg, st);
    ReachableOrigin(cfg, st);
    LastUnique(st.history, n, m);
  }

  // Failure isolation is exact: a run has a counterpart without session s if and only if, whenever s
  // throws in it, a listener of the service or another session hears the log as well.
  lemma IsolatedExactly(cfg: Config, start: BlockNumber, acts: seq<Action>, s: nat)
    requires cfg.Valid() && Exec(cfg, start, acts).Some?
    ensures (exists b :: Counterpart(cfg, start, acts, s, b)) <==> ThrowsShared(cfg, start, acts, s)
  {
    if ThrowsShared(cfg, start, acts, s) {
      var b := RunWithout(cfg, start, acts, s);
      assert Counterpart(cfg, start, acts, s, b);
    }
    if b :| Counterpart(cfg, start, acts, s, b) {
      forall i: nat | i < |acts| && acts[i] == Dispatch(ThrowSession(s))
        ensures Exec(cfg, start, acts[..i]).Some?
        ensures var st := Exec(cfg, start, acts[..i]).value; st.block.Dispatching? && OthersHear(cfg, st, s)
      {
        CounterpartShares(cfg, start, acts, s, b, i);
      }
    }
  }
}

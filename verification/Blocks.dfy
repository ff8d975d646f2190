/** What a block contributes to the history. */
module Blocks {
  import opened Eth
  import opened Service
  import opened Pusher
  import opened System
  import opened Numbers
  import opened Runs

  // The environment is free: Geth may answer anything, the monitor may reject a header or accept it with any
  // logs, and a block that is through may still end with an exception.
  lemma HostMay(cfg: Config, st: State, g: Geth, logs: seq<Log>, ok: bool)
    requires cfg.Valid() && Reachable(cfg, st)
    ensures st.block.Idle? && st.push.inHand.None? ==> HostEnabled(st, Fetch(g))
    ensures st.block.Idle? && st.push.inHand.Some? ==> HostEnabled(st, Reject) && HostEnabled(st, Begin(logs))
    ensures st.block.Between? && st.block.rest == [] ==> HostEnabled(st, End(ok))
  {
    ReachableNumbers(cfg, st);
  }

  // The cursor moves, and a header counts as pushed, only when a block's processing ends normally. The last
  // validated number is that of the last header whose processing began.
  lemma WhatMoves(cfg: Config, st: State, a: Action)
    requires Enabled(cfg, st, a)
    ensures var p, q := st.push, Do(cfg, st, a).push;
            if a == Host(End(true))
            then p.inHand.Some? && q.cursor == (p.cursor + 1) % TWO_TO_THE_64 && q.pushed == p.pushed + [p.inHand.value]
            else q.cursor == p.cursor && q.pushed == p.pushed
    ensures if a.Host? && a.h.Begin?
            then st.push.inHand.Some? && Do(cfg, st, a).last == Blk(st.push.inHand.value) && st.block.Idle?
            else Do(cfg, st, a).last == st.last
  {
    if a.Dispatch? {
      DispatchFrame(cfg, st, a.d);
    }
  }

  // The history as it will be once the block under way is through.
  function Planned(st: State): seq<Entry> {
    if st.block.Idle? then st.history else st.history + Entries(st.block.num, st.ord, st.block.rest)
  }

  // A step inside a block only takes logs from the front of what is left into the history.
  lemma PlannedStep(cfg: Config, st: State, a: Action)
    requires BlockInv(st) && Enabled(cfg, st, a) && !a.Host?
    ensures st.block.Idle? ==> Do(cfg, st, a).block.Idle? && Do(cfg, st, a).history == st.history
    ensures !Do(cfg, st, a).block.Idle? ==> Planned(Do(cfg, st, a)) == Planned(st)
    ensures Do(cfg, st, a).history <= Planned(st)
  {
    if a == Dispatch(BeginLog) {
      EntriesFirst(st.block.num, st.ord, st.block.rest);
    } else if a.Dispatch? {
      DispatchFrame(cfg, st, a.d);
      if !DispatchDo(cfg, st, a.d).block.Idle? {
        DispatchKeepsRest(cfg, st, a.d);
      }
    }
  }

  lemma DispatchKeepsRest(cfg: Config, st: State, d: DispatchStep)
    requires DispatchEnabled(cfg, st, d) && !d.BeginLog? && !DispatchDo(cfg, st, d).block.Idle?
    ensures DispatchDo(cfg, st, d).block.num == st.block.num && DispatchDo(cfg, st, d).block.rest == st.block.rest
  {}

  lemma {:induction false} PlannedRun(cfg: Config, from: State, acts: seq<Action>)
    requires cfg.Valid() && Reachable(cfg, from) && Wf(from) && ExecFrom(cfg, from, acts).Some?
    requires forall i | 0 <= i < |acts| :: !acts[i].Host?
    ensures var st := ExecFrom(cfg, from, acts).value;
            st.history <= Planned(from) && (!st.block.Idle? ==> !from.block.Idle? && Planned(st) == Planned(from))
  {
    if acts != [] {
      var before := acts[..|acts| - 1];
      PlannedRun(cfg, from, before);
      ReachableRun(cfg, from, before);
      ReachableNumbers(cfg, ExecFrom(cfg, from, before).value);
      PlannedStep(cfg, ExecFrom(cfg, from, before).value, acts[|acts| - 1]);
    }
  }

  lemma BeginPlanned(st: State, logs: seq<Log>)
    requires HostEnabled(st, Begin(logs))
    ensures Planned(HostDo(st, Begin(logs))) == st.history + Entries(st.push.inHand.value, st.ord + 1, logs)
  {}

  // From the start of a block on, in every interleaving, the history grows by a prefix of the block's
  // logs; by the time the block can end normally, by all of them, in order.
  lemma BlockContributes(cfg: Config, st: State, logs: seq<Log>, acts: seq<Action>)
    requires cfg.Valid() && Reachable(cfg, st) && Wf(st) && HostEnabled(st, Begin(logs))
    requires ExecFrom(cfg, HostDo(st, Begin(logs)), acts).Some? && forall i | 0 <= i < |acts| :: !acts[i].Host?
    ensures var now, block := ExecFrom(cfg, HostDo(st, Begin(logs)), acts).value,
                              Entries(st.push.inHand.value, st.ord + 1, logs);
            && now.history <= st.history + block
            && (HostEnabled(now, End(true)) ==> now.history == st.history + block)
  {
    BeginPlanned(st, logs);
    ReachableStep(cfg, st, Host(Begin(logs)));
    PlannedRun(cfg, HostDo(st, Begin(logs)), acts);
  }
}

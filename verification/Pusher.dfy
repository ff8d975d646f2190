/** The host's block pusher: the cursor of the host block service and the task that ticks it. */
module Pusher {
  import opened Eth

  const TWO_TO_THE_64 := 0x1_0000_0000_0000_0000

  // The 64-bit block number of the host.
  type BlockNumber = n: nat | n < TWO_TO_THE_64

  // Geth's answers during one attempt: its height, and the number carried by the header it returns
  // for the requested block (None: that request failed).
  datatype Geth = Unreachable | Height(height: BlockNumber, header: Option<nat>)

  datatype PushResult = Pushed | NotYet | Threw

  // The header that one attempt fetches, if it gets that far.
  function InHand(cursor: BlockNumber, g: Geth): Option<nat> {
    if g.Height? && cursor <= g.height then g.header else None
  }

  // The increment of an unsigned 64-bit counter.
  function Bump(cursor: BlockNumber): BlockNumber {
    (cursor + 1) % TWO_TO_THE_64
  }

  // The i-th block number from start, for a cursor that wraps.
  function NumberAt(start: BlockNumber, i: nat): BlockNumber {
    (start + i) % TWO_TO_THE_64
  }

  lemma BumpNumberAt(start: BlockNumber, i: nat)
    ensures Bump(NumberAt(start, i)) == NumberAt(start, i + 1)
  {
    assert start + i == (start + i) / TWO_TO_THE_64 * TWO_TO_THE_64 + NumberAt(start, i);
  }

  // The enclave side of a push: keeps the numbers it was pushed successfully.
  class BlockReceiver {
    var received: seq<nat>

    constructor ()
      ensures received == []
    {
      received := [];
    }

    // Processing the header either finishes or throws; that is decided elsewhere.
    method RecvBlock(header: nat, finishes: bool) returns (ok: bool)
      modifies this
      ensures ok == finishes
      ensures received == if ok then old(received) + [header] else old(received)
    {
      ok := finishes;
      if ok {
        received := received + [header];
      }
    }
  }

  class HostBlockService {
    var blockReceiver: BlockReceiver?
    var currBlockNum: BlockNumber

    constructor ()
      ensures blockReceiver == null && currBlockNum == 0
    {
      blockReceiver, currBlockNum := null, 0;
    }

    method SetUpdSvcStartBlock(startBlockNum: BlockNumber)
      modifies this
      ensures currBlockNum == startBlockNum && blockReceiver == old(blockReceiver)
    {
      currBlockNum := startBlockNum;
    }

    method BindReceiver(receiver: BlockReceiver)
      modifies this
      ensures blockReceiver == receiver && currBlockNum == old(currBlockNum)
    {
      blockReceiver := receiver;
    }

    // Throws without a receiver, and when the receiver throws.
    method PushBlock(header: nat, finishes: bool) returns (ok: bool)
      modifies blockReceiver
      ensures ok <==> blockReceiver != null && finishes
      ensures blockReceiver != null ==>
                blockReceiver.received == old(blockReceiver.received) + if ok then [header] else []
    {
      if blockReceiver == null {
        ok := false;
      } else {
        ok := blockReceiver.RecvBlock(header, finishes);
      }
    }

    // There is something to push when Geth has reached the cursor and served a header. Then the attempt
    // pushes it or, without a receiver or with one that does not finish, throws. The cursor moves exactly
    // when a block went through.
    method TryPushNewBlock(g: Geth, finishes: bool) returns (r: PushResult)
      modifies this`currBlockNum, blockReceiver
      ensures r == AttemptResult(old(currBlockNum), g, blockReceiver != null && finishes)
      ensures r.NotYet? <==> g.Unreachable? || g.height < old(currBlockNum) || g.header.None?
      ensures r.Threw? <==> g.Height? && old(currBlockNum) <= g.height && g.header.Some?
                            && (blockReceiver == null || !finishes)
      ensures currBlockNum == if r.Pushed? then (old(currBlockNum) + 1) % TWO_TO_THE_64 else old(currBlockNum)
      ensures blockReceiver != null ==>
                blockReceiver.received == old(blockReceiver.received) + if r.Pushed? then [g.header.value] else []
    {
      if g.Unreachable? || g.height < currBlockNum || g.header.None? {
        return NotYet;
      }
      var ok := PushBlock(g.header.value, finishes);
      if !ok {
        return Threw;
      }
      currBlockNum := (currBlockNum + 1) % TWO_TO_THE_64;
      return Pushed;
    }
  }

  function AttemptResult(cursor: BlockNumber, g: Geth, finishes: bool): PushResult {
    if InHand(cursor, g).None? then NotYet else if finishes then Pushed else Threw
  }

  // ----- the ticking task -----

  // What a tick reads and changes: the cursor, whether the task sleeps between ticks, and the blocks
  // pushed so far.
  datatype Ticker = Ticker(cursor: BlockNumber, delayed: bool, pushed: seq<nat>)

  function TickOnce(t: Ticker, g: Geth, finishes: bool): Ticker {
    match AttemptResult(t.cursor, g, finishes)
    case Pushed => Ticker(Bump(t.cursor), false, t.pushed + [g.header.value])
    case NotYet => t.(delayed := true)
    case Threw => t
  }

  const TASK_UPD_INTERVAL_MILSEC: int := 200

  class BlockUpdatorServiceTask {
    const blockUpdator: HostBlockService?
    const retryIntervalMilSec: int
    // (update interval, tick interval) while the task sleeps between ticks
    var interval: Option<(int, int)>

    constructor (updator: HostBlockService?, retry: int, initial: Option<(int, int)>)
      ensures blockUpdator == updator && retryIntervalMilSec == retry && interval == initial
    {
      blockUpdator, retryIntervalMilSec, interval := updator, retry, initial;
    }

    // Without a receiver nothing has been pushed.
    function View(): Ticker
      requires blockUpdator != null
      reads this, blockUpdator, blockUpdator.blockReceiver
    {
      Ticker(blockUpdator.currBlockNum, interval.Some?,
             if blockUpdator.blockReceiver == null then [] else blockUpdator.blockReceiver.received)
    }

    // One tick; ok is false when it throws: without an updator, and when an attempt that got a header
    // finds no receiver or the receiver throws. A tick that throws leaves cursor and interval alone, one
    // that pushes ends the delay, one with nothing to push begins it. An interval that is already on is
    // left as it is.
    method Tick(g: Geth, finishes: bool) returns (ok: bool)
      modifies this, blockUpdator, if blockUpdator == null then null else blockUpdator.blockReceiver
      ensures blockUpdator == null ==> !ok && interval == old(interval)
      ensures blockUpdator != null ==> blockUpdator.blockReceiver == old(blockUpdator.blockReceiver)
      ensures blockUpdator != null ==>
                var processed := blockUpdator.blockReceiver != null && finishes;
                var served := g.Height? && old(blockUpdator.currBlockNum) <= g.height && g.header.Some?;
                && View() == TickOnce(old(View()), g, processed)
                && (!ok <==> served && !processed)
                && (!ok ==> interval == old(interval) && blockUpdator.currBlockNum == old(blockUpdator.currBlockNum))
                && (served && processed ==> interval.None?)
                && (!served ==> interval.Some?)
      ensures interval.Some? && old(interval).None? ==>
                interval == Some((TASK_UPD_INTERVAL_MILSEC, retryIntervalMilSec))
      ensures interval.Some? && old(interval).Some? ==> interval == old(interval)
    {
      if blockUpdator == null {
        return false;
      }
      var r := blockUpdator.TryPushNewBlock(g, finishes);
      match r {
        case Pushed =>
          if interval.Some? {
            interval := None;
          }
        case NotYet =>
          if interval.None? {
            interval := Some((TASK_UPD_INTERVAL_MILSEC, retryIntervalMilSec));
          }
        case Threw =>
      }
      return r != Threw;
    }
  }

  // Geth at a constant height, serving what is asked for; every push finishes.
  function Steady(t: Ticker, height: BlockNumber): Ticker {
    TickOnce(t, Height(height, Some(t.cursor)), true)
  }

  function Ticks(t: Ticker, height: BlockNumber, n: nat): Ticker
    decreases n
  {
    if n == 0 then t else Steady(Ticks(t, height, n - 1), height)
  }

  function Upward(from: nat, n: nat): (s: seq<nat>)
    ensures |s| == n && forall i | 0 <= i < n :: s[i] == from + i
  {
    seq(n, i requires 0 <= i => from + i)
  }

  // Catching up takes exactly height + 1 - cursor ticks: each pushes the next block without delay, and
  // from the first tick after that the task sleeps and pushes nothing.
  lemma {:induction false} CatchUp(t: Ticker, height: BlockNumber, n: nat)
    requires t.cursor <= height + 1 < TWO_TO_THE_64
    ensures n <= height + 1 - t.cursor ==>
              Ticks(t, height, n) == Ticker(t.cursor + n, t.delayed && n == 0, t.pushed + Upward(t.cursor, n))
    ensures n > height + 1 - t.cursor ==>
              Ticks(t, height, n) == Ticker(height + 1, true, t.pushed + Upward(t.cursor, height + 1 - t.cursor))
  {
    if n > 0 {
      CatchUp(t, height, n - 1);
      if n <= height + 1 - t.cursor {
        assert Upward(t.cursor, n) == Upward(t.cursor, n - 1) + [t.cursor + n - 1];
        assert Ticks(t, height, n - 1).cursor == t.cursor + n - 1;
        assert Ticks(t, height, n).pushed == t.pushed + Upward(t.cursor, n - 1) + [t.cursor + n - 1];
      }
    }
  }

  // There is an end to catch up to exactly when the height is not the largest 64-bit number: at that
  // height the cursor wraps to zero and every tick pushes again.
  lemma {:induction false} CatchUpEnds(t: Ticker, height: BlockNumber)
    requires t.cursor <= height
    ensures (exists n :: Steady(Ticks(t, height, n), height).pushed == Ticks(t, height, n).pushed)
            <==> height + 1 < TWO_TO_THE_64
  {
    if height + 1 < TWO_TO_THE_64 {
      CatchUp(t, height, height + 1 - t.cursor);
      var u := Ticks(t, height, height + 1 - t.cursor);
      assert Steady(u, height).pushed == u.pushed;
    } else {
      forall n: nat ensures Steady(Ticks(t, height, n), height).pushed != Ticks(t, height, n).pushed {
        var u := Ticks(t, height, n);
        assert Steady(u, height).pushed == u.pushed + [u.cursor];
      }
    }
  }
}

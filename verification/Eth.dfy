/** Values shared by every part of the model: bytes, addresses, topics, receipt logs
    and the history of logs that have been dispatched. */
module Eth {

  datatype Option<+T> = None | Some(value: T)

  newtype Byte = b: int | 0 <= b < 256
  type Bytes = seq<Byte>

  // A contract address, the 20-byte array of the monitor library.
  type Addr = a: Bytes | |a| == 20 witness seq(20, _ => 0)

  // An event topic, the 32-byte array of the monitor library.
  type Topic = t: Bytes | |t| == 32 witness seq(32, _ => 0)

  // The value-initialised address: what a failed lookup returns.
  const ZERO_ADDR: Addr := [0, 0, 0, 0, 0, 0, 0, 0, 0, 0, 0, 0, 0, 0, 0, 0, 0, 0, 0, 0]

  datatype Log = Log(addr: Addr, topics: seq<Topic>, data: Bytes)

  // The last validated block number; it is an empty byte string until the first block.
  datatype BlkNum = NoBlk | Blk(n: nat)

  // What a queue holds: an event (block number, message) or a receipt (block number, topics, data).
  datatype Item =
    | Ev(blk: nat, msg: Bytes)
    | Rc(blk: nat, topics: seq<Topic>, data: Bytes)

  // A log whose dispatch has begun, with its block's number and the ordinal of that block among all
  // processed blocks.
  datatype Entry = Entry(blk: nat, ord: nat, log: Log)

  // The entries that the logs of a block add to the history.
  function Entries(blk: nat, ord: nat, logs: seq<Log>): (h: seq<Entry>)
    ensures |h| == |logs|
  {
    seq(|logs|, i requires 0 <= i < |logs| => Entry(blk, ord, logs[i]))
  }

  lemma EntriesFirst(blk: nat, ord: nat, logs: seq<Log>)
    requires logs != []
    ensures Entries(blk, ord, logs) == [Entry(blk, ord, logs[0])] + Entries(blk, ord, logs[1..])
  {}

  lemma EntriesNext(blk: nat, ord: nat, logs: seq<Log>, n: nat)
    requires n < |logs|
    ensures Entries(blk, ord, logs[..n + 1]) == Entries(blk, ord, logs[..n]) + [Entry(blk, ord, logs[n])]
  {}

  // A listener's address and topics select a log: same contract, topics a positional prefix.
  predicate Matches(addr: Addr, topics: seq<Topic>, log: Log) {
    log.addr == addr && topics <= log.topics
  }

  predicate NotAfter(it: Item, num: BlkNum) {
    num.Blk? && it.blk <= num.n
  }

  // Every item is of a block up to num.
  predicate UpTo(items: seq<Item>, num: BlkNum) {
    forall i | 0 <= i < |items| :: NotAfter(items[i], num)
  }

  // Every item is of a block after num.
  predicate After(items: seq<Item>, num: BlkNum) {
    forall i | 0 <= i < |items| :: num.Blk? ==> num.n < items[i].blk
  }

  predicate Sorted(items: seq<Item>) {
    forall i, j | 0 <= i < j < |items| :: items[i].blk <= items[j].blk
  }
}

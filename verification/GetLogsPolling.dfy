/**
 The client-side steady state of an event stream: paging through eth_getLogs range queries, and repairing
 what a re-org changes behind the poll position.
 */
module GetLogsPolling {
  import opened Blocks
  import opened AggregatedListener

  // ----- What the operations compute -----

  // Full mode: fromBlock is the next block to poll, polledChain records the polled blocks that are still unstable.
  // Light mode: fromBlock is the committed base, delivered holds the blocks whose logs were delivered.
  datatype Poll = Poll(fromBlock: int, polledChain: seq<Block>, delivered: map<Hash, nat>)

  function Undelivered(delivered: map<Hash, nat>, logs: seq<Log>): (r: seq<Log>)
    ensures forall i :: 0 <= i < |r| ==> r[i] in logs
  {
    if logs == [] then []
    else
      var last := logs[|logs| - 1];
      var front := Undelivered(delivered, logs[..|logs| - 1]);
      if last.blockHash in delivered then front else front + [last]
  }

  function Record(delivered: map<Hash, nat>, logs: seq<Log>): map<Hash, nat> {
    if logs == [] then delivered
    else
      var last := logs[|logs| - 1];
      Record(delivered, logs[..|logs| - 1])[last.blockHash := last.blockNumber]
  }

  function Prune(delivered: map<Hash, nat>, base: int): map<Hash, nat> {
    map h | h in delivered && delivered[h] >= base :: delivered[h]
  }

  function AfterRescan(p: Poll, newLogs: seq<Log>, newBase: int): Poll {
    p.(fromBlock := newBase, delivered := Prune(Record(p.delivered, newLogs), newBase))
  }

  function HashAt(headChain: seq<Block>, n: int): Option<Hash> {
    if headChain == [] then None
    else if headChain[0].number == n then Some(headChain[0].hash)
    else HashAt(headChain[1..], n)
  }

  function FirstInWindow(records: seq<Block>, base: int, i: nat): (k: nat)
    requires i <= |records|
    ensures i <= k <= |records|
    decreases |records| - i
  {
    if i < |records| && records[i].number < base then FirstInWindow(records, base, i + 1) else i
  }

  predicate Replaced(record: Block, headChain: seq<Block>) {
    var canonical := HashAt(headChain, record.number);
    canonical.Some? && canonical.value != record.hash
  }

  function FirstReplaced(records: seq<Block>, headChain: seq<Block>, i: nat): (k: nat)
    requires i <= |records|
    ensures i <= k <= |records|
    ensures k < |records| ==> Replaced(records[k], headChain)
    ensures forall j :: i <= j < k ==> !Replaced(records[j], headChain)
    decreases |records| - i
  {
    if i < |records| && !Replaced(records[i], headChain) then FirstReplaced(records, headChain, i + 1) else i
  }

  function AfterRewind(p: Poll, headChain: seq<Block>): Poll {
    if headChain == [] || p.polledChain == [] then p
    else
      var records := p.polledChain[FirstInWindow(p.polledChain, headChain[0].number, 0)..];
      var k := FirstReplaced(records, headChain, 0);
      if k < |records| then p.(fromBlock := records[k].number, polledChain := records[..k])
      else p.(polledChain := records)
  }

  function Between(headChain: seq<Block>, lo: int, hi: int): seq<Block> {
    if headChain == [] then []
    else
      var last := headChain[|headChain| - 1];
      var front := Between(headChain[..|headChain| - 1], lo, hi);
      if lo <= last.number <= hi then front + [last] else front
  }

  function AfterAdvance(p: Poll, headChain: seq<Block>, toBlock: int): Poll {
    p.(fromBlock := toBlock + 1, polledChain := p.polledChain + Between(headChain, p.fromBlock, toBlock))
  }

  function StableHead(chainHead: int, gap: int): int {
    Max(chainHead - gap, 0)
  }

  function ScanCeiling(lightMode: bool, chainHead: int, stableHead: int, headChain: seq<Block>): int {
    if lightMode then chainHead
    else
      var verifiableTo := if headChain == [] then stableHead else Max(headChain[|headChain| - 1].number, stableHead);
      Min(chainHead, verifiableTo)
  }

  // ----- The poll state -----

  class GetLogsPollState {
    var fromBlock: int
    var polledChain: seq<Block>
    var deliveredBlocks: map<Hash, nat>

    function State(): Poll
      reads this
    {
      Poll(fromBlock, polledChain, deliveredBlocks)
    }

    constructor ()
      ensures State() == Poll(-1, [], map[])
    {
      fromBlock, polledChain, deliveredBlocks := -1, [], map[];
    }

    method Reset(fromBlock: int)
      modifies this
      ensures State() == Poll(fromBlock, [], map[])
    {
      this.fromBlock := fromBlock;
      polledChain := [];
      deliveredBlocks := map[];
    }

    method FilterDelivered(logs: seq<Log>) returns (newLogs: seq<Log>)
      ensures newLogs == Undelivered(deliveredBlocks, logs)
    {
      if |deliveredBlocks| == 0 {
        AllUndelivered(deliveredBlocks, logs);
        return logs;
      }
      newLogs := [];
      var i := 0;
      while i < |logs|
        invariant i <= |logs| && newLogs == Undelivered(deliveredBlocks, logs[..i])
      {
        assert logs[..i + 1][..i] == logs[..i];
        if logs[i].blockHash !in deliveredBlocks {
          newLogs := newLogs + [logs[i]];
        }
        i := i + 1;
      }
      assert logs[..i] == logs;
    }

    method AdvanceRescan(newLogs: seq<Log>, newBase: int)
      modifies this
      ensures State() == AfterRescan(old(State()), newLogs, newBase)
    {
      var i := 0;
      while i < |newLogs|
        invariant i <= |newLogs| && deliveredBlocks == Record(old(deliveredBlocks), newLogs[..i])
        invariant fromBlock == old(fromBlock) && polledChain == old(polledChain)
      {
        assert newLogs[..i + 1][..i] == newLogs[..i];
        deliveredBlocks := deliveredBlocks[newLogs[i].blockHash := newLogs[i].blockNumber];
        i := i + 1;
      }
      assert newLogs[..i] == newLogs;
      fromBlock := newBase;
      ghost var recorded := deliveredBlocks;
      var keys := deliveredBlocks.Keys;
      while keys != {}
        invariant fromBlock == newBase && polledChain == old(polledChain) && keys <= deliveredBlocks.Keys
        invariant deliveredBlocks.Keys == set h | h in recorded && (h in keys || recorded[h] >= newBase)
        invariant forall h :: h in deliveredBlocks ==> deliveredBlocks[h] == recorded[h]
        decreases |keys|
      {
        var h :| h in keys;
        keys := keys - {h};
        if deliveredBlocks[h] < newBase {
          deliveredBlocks := deliveredBlocks - {h};
        }
      }
    }

    method CheckReorgRewind(headChain: seq<Block>)
      modifies this
      ensures State() == AfterRewind(old(State()), headChain)
    {
      if |headChain| == 0 || |polledChain| == 0 {
        return;
      }
      var firstInWindow := 0;
      while firstInWindow < |polledChain| && polledChain[firstInWindow].number < headChain[0].number
        invariant firstInWindow <= |polledChain| && State() == old(State())
        invariant FirstInWindow(polledChain, headChain[0].number, firstInWindow)
                  == FirstInWindow(polledChain, headChain[0].number, 0)
      {
        firstInWindow := firstInWindow + 1;
      }
      polledChain := polledChain[firstInWindow..];
      ghost var records := polledChain;
      var i := 0;
      while i < |polledChain|
        invariant i <= |polledChain| && State() == old(State()).(polledChain := records)
        invariant FirstReplaced(polledChain, headChain, i) == FirstReplaced(polledChain, headChain, 0)
      {
        var canonicalHash := BlockHashInHeadChain(headChain, polledChain[i].number);
        if canonicalHash.Some? && canonicalHash.value != polledChain[i].hash {
          fromBlock := polledChain[i].number;
          polledChain := polledChain[..i];
          return;
        }
        i := i + 1;
      }
    }

    static method BlockHashInHeadChain(headChain: seq<Block>, blockNumber: int) returns (hash: Option<Hash>)
      ensures hash == HashAt(headChain, blockNumber)
    {
      var i := 0;
      assert headChain[i..] == headChain;
      while i < |headChain|
        invariant i <= |headChain| && HashAt(headChain[i..], blockNumber) == HashAt(headChain, blockNumber)
      {
        assert headChain[i..][1..] == headChain[i + 1..];
        if headChain[i].number == blockNumber {
          return Some(headChain[i].hash);
        }
        i := i + 1;
      }
      hash := None;
    }

    method Advance(headChain: seq<Block>, toBlock: int)
      modifies this
      ensures State() == AfterAdvance(old(State()), headChain, toBlock)
    {
      var i := 0;
      while i < |headChain|
        invariant i <= |headChain| && polledChain == old(polledChain) + Between(headChain[..i], fromBlock, toBlock)
        invariant fromBlock == old(fromBlock) && deliveredBlocks == old(deliveredBlocks)
      {
        assert headChain[..i + 1][..i] == headChain[..i];
        if fromBlock <= headChain[i].number <= toBlock {
          polledChain := polledChain + [headChain[i]];
        }
        i := i + 1;
      }
      assert headChain[..i] == headChain;
      fromBlock := toBlock + 1;
    }
  }

  /** Each log of a block without a record is kept, in order, and no other. */
  lemma {:induction false} UndeliveredInOrder(delivered: map<Hash, nat>, a: seq<Log>, g: Log, b: seq<Log>)
    ensures Undelivered(delivered, a + [g] + b)
         == Undelivered(delivered, a) + (if g.blockHash in delivered then [] else [g]) + Undelivered(delivered, b)
  {
    var kept := if g.blockHash in delivered then [] else [g];
    if b == [] {
      assert a + [g] + b == a + [g] && (a + [g])[..|a|] == a;
      assert Undelivered(delivered, a) + kept + [] == Undelivered(delivered, a) + kept;
    } else {
      UndeliveredInOrder(delivered, a, g, b[..|b| - 1]);
      assert (a + [g] + b)[..|a| + |b|] == a + [g] + b[..|b| - 1];
    }
  }

  lemma {:induction false} AllUndelivered(delivered: map<Hash, nat>, logs: seq<Log>)
    requires delivered == map[]
    ensures Undelivered(delivered, logs) == logs
  {
    if logs != [] {
      AllUndelivered(delivered, logs[..|logs| - 1]);
    }
  }
}

/**
 Full mode: the hashes of the blocks that were polled are recorded, and the poll position is rewound to the
 first block whose hash is no longer the one in the canonical chain.
 */
module FullMode {
  import opened Blocks
  import opened AggregatedListener
  import opened GetLogsPolling
  import opened SteadyState
  import CanonicalChain

  // The snapshot is linked, and reaches down to the stable head
  ghost predicate GoodSnapshot(headChain: seq<Block>, stableHead: int) {
    Linked(headChain) && (headChain != [] ==> headChain[0].number <= stableHead + 1)
  }

  /** The block listener's list is such a snapshot once it fills the monitored window, also while it lags behind the
      head. */
  lemma {:induction false} MonitoredListIsGood(v: CanonicalChain.View, monitored: nat)
    requires CanonicalChain.Inv(v) && monitored > 0 && v.chain != []
    requires |v.chain| >= monitored || v.chain[0].number == 0
    ensures GoodSnapshot(v.chain, StableHead(v.highestBlock, monitored))
  {
    LinkedNumbers(v.chain, |v.chain| - 1);
  }

  ghost predicate Ascending(records: seq<Block>) {
    forall i, j :: 0 <= i < j < |records| ==> records[i].number < records[j].number
  }

  predicate HasRecord(records: seq<Block>, n: int) {
    exists i :: 0 <= i < |records| && records[i].number == n
  }

  // Every block number above the stable head that was polled since the reset has a record
  ghost predicate Covers(p: Poll, start: int, stableHead: int) {
    && start <= p.fromBlock
    && Ascending(p.polledChain)
    && (forall i :: 0 <= i < |p.polledChain| ==> start <= p.polledChain[i].number < p.fromBlock)
    && (forall n: int :: start <= n < p.fromBlock && n > stableHead ==> HasRecord(p.polledChain, n))
  }

  // A recorded block that is in the snapshot has the canonical hash
  ghost predicate Canonical(records: seq<Block>, headChain: seq<Block>) {
    forall i, j :: 0 <= i < |records| && 0 <= j < |headChain| && records[i].number == headChain[j].number ==>
      records[i].hash == headChain[j].hash
  }

  lemma {:induction false} HashAtIndex(headChain: seq<Block>, j: nat)
    requires Linked(headChain) && j < |headChain|
    ensures HashAt(headChain, headChain[j].number) == Some(headChain[j].hash)
  {
    LinkedNumbers(headChain, j);
    if j > 0 {
      HashAtIndex(headChain[1..], j - 1);
    }
  }

  lemma {:induction false} FirstInWindowSpec(records: seq<Block>, base: int, i: nat)
    requires i <= |records|
    ensures forall j :: i <= j < FirstInWindow(records, base, i) ==> records[j].number < base
    decreases |records| - i
  {
    if i < |records| && records[i].number < base {
      FirstInWindowSpec(records, base, i + 1);
    }
  }

  // The records of a suffix, and of a prefix
  lemma {:induction false} RecordInSuffix(records: seq<Block>, k: nat, n: int)
    requires k <= |records| && HasRecord(records, n) && forall j :: 0 <= j < k ==> records[j].number != n
    ensures HasRecord(records[k..], n)
  {
    var i :| 0 <= i < |records| && records[i].number == n;
    assert records[k..][i - k].number == n;
  }

  lemma {:induction false} RecordInPrefix(records: seq<Block>, k: nat, n: int)
    requires k < |records| && Ascending(records) && HasRecord(records, n) && n < records[k].number
    ensures HasRecord(records[..k], n)
  {
    var i :| 0 <= i < |records| && records[i].number == n;
    assert records[..k][i].number == n;
  }

  // Records that have aged out are not needed
  lemma {:induction false} PruneCovers(p: Poll, start: int, stableHead: int, base: int)
    requires Covers(p, start, stableHead) && base <= stableHead + 1
    ensures Covers(p.(polledChain := p.polledChain[FirstInWindow(p.polledChain, base, 0)..]), start, stableHead)
  {
    var k := FirstInWindow(p.polledChain, base, 0);
    FirstInWindowSpec(p.polledChain, base, 0);
    forall n: int | start <= n < p.fromBlock && n > stableHead
      ensures HasRecord(p.polledChain[k..], n)
    {
      RecordInSuffix(p.polledChain, k, n);
    }
  }

  lemma {:induction false} CutCovers(p: Poll, start: int, stableHead: int, k: nat)
    requires Covers(p, start, stableHead) && k < |p.polledChain|
    ensures Covers(p.(fromBlock := p.polledChain[k].number, polledChain := p.polledChain[..k]), start, stableHead)
  {
    forall n: int | start <= n < p.polledChain[k].number && n > stableHead
      ensures HasRecord(p.polledChain[..k], n)
    {
      RecordInPrefix(p.polledChain, k, n);
    }
  }

  lemma {:induction false} UnreplacedIsCanonical(records: seq<Block>, headChain: seq<Block>)
    requires Linked(headChain) && forall i :: 0 <= i < |records| ==> !Replaced(records[i], headChain)
    ensures Canonical(records, headChain)
  {
    forall i, j | 0 <= i < |records| && 0 <= j < |headChain| && records[i].number == headChain[j].number
      ensures records[i].hash == headChain[j].hash
    {
      HashAtIndex(headChain, j);
    }
  }

  /** After the check for a re-org, every block above the stable head that is behind the poll position has a record,
      and a record of a block in the snapshot has the canonical hash. */
  lemma {:induction false} RewindCovers(p: Poll, start: int, stableHead: int, headChain: seq<Block>)
    requires Covers(p, start, stableHead) && GoodSnapshot(headChain, stableHead)
    ensures Covers(AfterRewind(p, headChain), start, stableHead)
    ensures Canonical(AfterRewind(p, headChain).polledChain, headChain)
    ensures AfterRewind(p, headChain).fromBlock <= p.fromBlock
  {
    if headChain != [] && p.polledChain != [] {
      var records := p.polledChain[FirstInWindow(p.polledChain, headChain[0].number, 0)..];
      PruneCovers(p, start, stableHead, headChain[0].number);
      var k := FirstReplaced(records, headChain, 0);
      UnreplacedIsCanonical(records[..k], headChain);
      if k < |records| {
        CutCovers(p.(polledChain := records), start, stableHead, k);
      } else {
        assert records[..k] == records;
      }
    }
  }

  lemma {:induction false} BetweenSpec(headChain: seq<Block>, lo: int, hi: int)
    requires Linked(headChain)
    ensures var r := Between(headChain, lo, hi);
            && Ascending(r)
            && (forall b :: b in r <==> b in headChain && lo <= b.number <= hi)
  {
    if headChain != [] {
      var front, last := headChain[..|headChain| - 1], headChain[|headChain| - 1];
      BetweenSpec(front, lo, hi);
      AllNumbers(headChain);
      assert headChain == front + [last];
      assert forall b :: b in Between(front, lo, hi) ==> b.number < last.number;
    }
  }

  lemma {:induction false} AdvanceCovers(p: Poll, start: int, stableHead: int, headChain: seq<Block>, toBlock: int)
    requires Covers(p, start, stableHead) && GoodSnapshot(headChain, stableHead) && p.fromBlock <= toBlock
    requires toBlock > stableHead ==> headChain != [] && toBlock <= headChain[|headChain| - 1].number
    ensures Covers(AfterAdvance(p, headChain, toBlock), start, stableHead)
  {
    var added := Between(headChain, p.fromBlock, toBlock);
    BetweenSpec(headChain, p.fromBlock, toBlock);
    forall i | 0 <= i < |added|
      ensures p.fromBlock <= added[i].number <= toBlock
    {
      assert added[i] in added;
    }
    forall n: int | start <= n <= toBlock && n > stableHead
      ensures HasRecord(p.polledChain + added, n)
    {
      if n < p.fromBlock {
        assert HasRecord(p.polledChain, n);
        RecordInFront(p.polledChain, added, n);
      } else {
        SnapshotHas(headChain, n);
        var b :| b in headChain && b.number == n;
        assert b in added;
        RecordBehind(p.polledChain, added, n);
      }
    }
  }

  lemma {:induction false} SnapshotHas(headChain: seq<Block>, n: int)
    requires Linked(headChain) && headChain != [] && headChain[0].number <= n <= headChain[|headChain| - 1].number
    ensures exists b :: b in headChain && b.number == n
  {
    LinkedNumbers(headChain, |headChain| - 1);
    LinkedNumbers(headChain, n - headChain[0].number);
    assert headChain[n - headChain[0].number] in headChain;
  }

  lemma {:induction false} RecordInFront(records: seq<Block>, added: seq<Block>, n: int)
    requires HasRecord(records, n)
    ensures HasRecord(records + added, n)
  {
    var i :| 0 <= i < |records| && records[i].number == n;
    assert (records + added)[i].number == n;
  }

  lemma {:induction false} RecordBehind(records: seq<Block>, added: seq<Block>, n: int)
    requires exists b :: b in added && b.number == n
    ensures HasRecord(records + added, n)
  {
    var b :| b in added && b.number == n;
    var i :| 0 <= i < |added| && added[i] == b;
    assert (records + added)[|records| + i].number == n;
  }

  // A head that rises needs fewer records
  lemma {:induction false} HigherStableCovers(p: Poll, start: int, stableHead: int, higher: int)
    requires Covers(p, start, stableHead) && stableHead <= higher
    ensures Covers(p, start, higher)
  {
  }

  // ----- What was delivered -----

  // The logs of the block with a hash
  datatype World = World(logs: Hash -> set<Log>)

  // A record stands for logs that were sent, to each listener that is not past the block by now
  ghost predicate RecordSent(w: World, ag: Aggregated, hwm: map<Id, int>, r: Block, sent: seq<Update>) {
    forall k, g |
      0 <= k < |ag.listeners| && g in w.logs(r.hash) && g.blockNumber == r.number
        && Wants(ag.listeners[k], Mark(hwm)(ag.listeners[k].id), g)
      :: Update(ag.listeners[k].id, g) in sent
  }

  ghost predicate AllSent(w: World, ag: Aggregated, s: Lead) {
    forall i :: 0 <= i < |s.poll.polledChain| ==> RecordSent(w, ag, s.hwm, s.poll.polledChain[i], s.sent)
  }

  // The page is answered from the chain of the snapshot
  ghost predicate AnswersSnapshot(w: World, headChain: seq<Block>, q: Query, logs: seq<Log>) {
    forall j, g | 0 <= j < |headChain| && g in w.logs(headChain[j].hash) && Passes(q, g)
      && g.blockNumber == headChain[j].number
      :: g in logs
  }

  // The snapshot is taken after the head is read, when the head can be higher
  ghost predicate Environment(w: World, cfg: Config, ag: Aggregated, s: Lead, i: Input, head: nat) {
    && i.chainHead <= head && GoodSnapshot(i.snapshot, StableHead(head, cfg.checkpointBlockGap))
    && (i.reply.Some? ==>
         var p := AfterRewind(s.poll, i.snapshot);
         AnswersSnapshot(w, i.snapshot, RangeQuery(ag, p.fromBlock, Page(cfg, p, i)), i.reply.value))
  }

  ghost predicate Inv(w: World, ag: Aggregated, start: int, stableHead: int, s: Lead) {
    Covers(s.poll, start, stableHead) && AllSent(w, ag, s)
  }

  lemma {:induction false} MarksRise(hwm: map<Id, int>, listeners: seq<Listener>, mark: int, id: Id)
    ensures Mark(hwm)(id) <= Mark(MoveForwards(hwm, listeners, mark))(id)
  {
  }

  lemma {:induction false} StillSent(
    w: World, ag: Aggregated, hwm: map<Id, int>, mark: int, r: Block, sent: seq<Update>, events: seq<Update>)
    requires RecordSent(w, ag, hwm, r, sent)
    ensures RecordSent(w, ag, MoveForwards(hwm, ag.listeners, mark), r, sent + events)
  {
    forall k, g |
      && 0 <= k < |ag.listeners| && g in w.logs(r.hash) && g.blockNumber == r.number
      && Wants(ag.listeners[k], Mark(MoveForwards(hwm, ag.listeners, mark))(ag.listeners[k].id), g)
      ensures Update(ag.listeners[k].id, g) in sent + events
    {
      MarksRise(hwm, ag.listeners, mark, ag.listeners[k].id);
      assert Wants(ag.listeners[k], Mark(hwm)(ag.listeners[k].id), g);
    }
  }

  lemma {:induction false} NewlySent(
    w: World, ag: Aggregated, hwm: map<Id, int>, headChain: seq<Block>, r: Block, fromBlock: int, toBlock: int,
    logs: seq<Log>, events: seq<Update>)
    requires IsIndex(ag, ag.listeners) && r in headChain && fromBlock <= r.number <= toBlock
    requires AnswersSnapshot(w, headChain, RangeQuery(ag, fromBlock, toBlock), logs)
    requires events == BruteForce(ag.listeners, Mark(hwm), logs)
    ensures RecordSent(w, ag, hwm, r, events)
  {
    forall k, g |
      0 <= k < |ag.listeners| && g in w.logs(r.hash) && g.blockNumber == r.number
        && Wants(ag.listeners[k], Mark(hwm)(ag.listeners[k].id), g)
      ensures Update(ag.listeners[k].id, g) in events
    {
      QueryExcludesNone(ag, ag.listeners, fromBlock, toBlock, Mark(hwm)(ag.listeners[k].id), k, g);
      var j :| 0 <= j < |headChain| && headChain[j] == r;
      BruteForceMember(ag.listeners, Mark(hwm), logs, Update(ag.listeners[k].id, g));
    }
  }

  lemma {:induction false} RewindKeepsSent(w: World, ag: Aggregated, s: Lead, headChain: seq<Block>)
    requires AllSent(w, ag, s)
    ensures AllSent(w, ag, s.(poll := AfterRewind(s.poll, headChain)))
  {
  }

  lemma {:induction false} DeliverKeepsSent(
    w: World, cfg: Config, ag: Aggregated, s: Lead, i: Input, toBlock: int, logs: seq<Log>, events: seq<Update>)
    requires IsIndex(ag, ag.listeners) && !cfg.lightMode && Linked(i.snapshot) && AllSent(w, ag, s)
    requires AnswersSnapshot(w, i.snapshot, RangeQuery(ag, s.poll.fromBlock, toBlock), logs)
    requires events == BruteForce(ag.listeners, Mark(s.hwm), logs)
    ensures AllSent(w, ag, Deliver(cfg, s, ag, i, s.poll, toBlock, logs, events))
  {
    var mark := HwmBlock(cfg, StableHead(i.chainHead, cfg.checkpointBlockGap), s.poll.fromBlock, toBlock);
    var added := Between(i.snapshot, s.poll.fromBlock, toBlock);
    BetweenSpec(i.snapshot, s.poll.fromBlock, toBlock);
    forall r | r in s.poll.polledChain
      ensures RecordSent(w, ag, MoveForwards(s.hwm, ag.listeners, mark), r, s.sent + events)
    {
      StillSent(w, ag, s.hwm, mark, r, s.sent, events);
    }
    forall r | r in added
      ensures RecordSent(w, ag, MoveForwards(s.hwm, ag.listeners, mark), r, s.sent + events)
    {
      NewlySent(w, ag, s.hwm, i.snapshot, r, s.poll.fromBlock, toBlock, logs, events);
      assert RecordSent(w, ag, s.hwm, r, s.sent + events);
      StillSent(w, ag, s.hwm, mark, r, s.sent + events, []);
      assert s.sent + events + [] == s.sent + events;
    }
  }

  lemma {:induction false} CycleKeepsInv(
    w: World, cfg: Config, ag: Aggregated, start: int, stableHead: int, s: Lead, i: Input, head: nat)
    requires IsIndex(ag, ag.listeners) && !cfg.lightMode && CanReply(i) && Inv(w, ag, start, stableHead, s)
    requires Environment(w, cfg, ag, s, i, head) && stableHead <= StableHead(head, cfg.checkpointBlockGap)
    ensures Inv(w, ag, start, StableHead(head, cfg.checkpointBlockGap), Cycle(cfg, s, ag, i).0)
  {
    var stable := StableHead(head, cfg.checkpointBlockGap);
    HigherStableCovers(s.poll, start, stableHead, stable);
    RewindCovers(s.poll, start, stable, i.snapshot);
    RewindKeepsSent(w, ag, s, i.snapshot);
    ScanKeepsInv(w, cfg, ag, start, stable, s, i, AfterRewind(s.poll, i.snapshot));
    CycleIsScan(cfg, s, ag, i);
  }

  lemma {:induction false} CycleIsScan(cfg: Config, s: Lead, ag: Aggregated, i: Input)
    requires !cfg.lightMode && CanReply(i)
    ensures || Cycle(cfg, s, ag, i).0 == s
            || Cycle(cfg, s, ag, i) == Scan(cfg, s, ag, i, AfterRewind(s.poll, i.snapshot))
  {
  }

  lemma {:induction false} ScanKeepsInv(
    w: World, cfg: Config, ag: Aggregated, start: int, stable: int, s: Lead, i: Input, p: Poll)
    requires IsIndex(ag, ag.listeners) && !cfg.lightMode && CanReply(i)
    requires StableHead(i.chainHead, cfg.checkpointBlockGap) <= stable
    requires Inv(w, ag, start, stable, s.(poll := p)) && GoodSnapshot(i.snapshot, stable)
    requires i.reply.Some? ==>
             AnswersSnapshot(w, i.snapshot, RangeQuery(ag, p.fromBlock, Page(cfg, p, i)), i.reply.value)
    ensures Inv(w, ag, start, stable, Scan(cfg, s, ag, i, p).0)
  {
    if Scan(cfg, s, ag, i, p).1.Polled? {
      var toBlock := Page(cfg, p, i);
      AdvanceCovers(p, start, stable, i.snapshot, toBlock);
      IndexRefinesBruteForce(ag, ag.listeners, Mark(s.hwm), i.reply.value, i.enrich);
      DeliverKeepsSent(w, cfg, ag, s.(poll := p), i, toBlock, i.reply.value,
        BruteForce(ag.listeners, Mark(s.hwm), i.reply.value));
    }
  }

  // heads are the heads at the time of the snapshots, which do not fall
  ghost predicate RunEnvironment(w: World, cfg: Config, ag: Aggregated, s: Lead, inputs: seq<Input>, heads: seq<nat>)
    requires forall k :: 0 <= k < |inputs| ==> CanReply(inputs[k])
  {
    && |heads| == |inputs| && (forall j, k :: 0 <= j < k < |heads| ==> heads[j] <= heads[k])
    && forall k :: 0 <= k < |inputs| ==> Environment(w, cfg, ag, Run(cfg, s, ag, inputs[..k]), inputs[k], heads[k])
  }

  function LastStable(cfg: Config, heads: seq<nat>): int {
    if heads == [] then 0 else StableHead(heads[|heads| - 1], cfg.checkpointBlockGap)
  }

  lemma {:induction false} RunKeepsInv(
    w: World, cfg: Config, ag: Aggregated, start: int, s: Lead, inputs: seq<Input>, heads: seq<nat>)
    requires IsIndex(ag, ag.listeners) && !cfg.lightMode && Inv(w, ag, start, 0, s)
    requires forall k :: 0 <= k < |inputs| ==> CanReply(inputs[k])
    requires RunEnvironment(w, cfg, ag, s, inputs, heads)
    ensures Inv(w, ag, start, LastStable(cfg, heads), Run(cfg, s, ag, inputs))
    decreases |inputs|
  {
    if inputs != [] {
      var last := |inputs| - 1;
      forall k | 0 <= k < last
        ensures Environment(w, cfg, ag, Run(cfg, s, ag, inputs[..last][..k]), inputs[..last][k], heads[..last][k])
      {
        assert inputs[..last][..k] == inputs[..k];
      }
      RunKeepsInv(w, cfg, ag, start, s, inputs[..last], heads[..last]);
      CycleKeepsInv(w, cfg, ag, start, LastStable(cfg, heads[..last]), Run(cfg, s, ag, inputs[..last]), inputs[last],
        heads[last]);
    }
  }

  /** In every cycle of a run from a reset: once the re-org check of that cycle is done, each block of the current
      snapshot that is above the stable head and behind the poll position has a record with its canonical hash,
      and its logs were sent to every listener that wants them and is not past it. The stable head is that of the
      time of the snapshot, which can be higher than the one the cycle reckons with. */
  lemma {:induction false} CanonicalWindowDelivered(
    w: World, cfg: Config, ag: Aggregated, start: int, s: Lead, inputs: seq<Input>, heads: seq<nat>,
    snapshot: seq<Block>, head: nat, j: nat)
    requires IsIndex(ag, ag.listeners) && !cfg.lightMode && s.poll == Poll(start, [], map[])
    requires forall k :: 0 <= k < |inputs| ==> CanReply(inputs[k])
    requires RunEnvironment(w, cfg, ag, s, inputs, heads) && forall h :: h in heads ==> h <= head
    requires GoodSnapshot(snapshot, StableHead(head, cfg.checkpointBlockGap)) && j < |snapshot|
    requires StableHead(head, cfg.checkpointBlockGap) < snapshot[j].number
    requires start <= snapshot[j].number < AfterRewind(Run(cfg, s, ag, inputs).poll, snapshot).fromBlock
    ensures var r := Run(cfg, s, ag, inputs);
            var p := AfterRewind(r.poll, snapshot);
            && (exists i :: 0 <= i < |p.polledChain| && p.polledChain[i].number == snapshot[j].number
                            && p.polledChain[i].hash == snapshot[j].hash)
            && RecordSent(w, ag, r.hwm, snapshot[j], r.sent)
  {
    RunKeepsInv(w, cfg, ag, start, s, inputs, heads);
    var r, stable := Run(cfg, s, ag, inputs), StableHead(head, cfg.checkpointBlockGap);
    assert heads != [] ==> heads[|heads| - 1] in heads;
    HigherStableCovers(r.poll, start, LastStable(cfg, heads), stable);
    RewindCovers(r.poll, start, stable, snapshot);
    RewindKeepsSent(w, ag, r, snapshot);
    var p, b := AfterRewind(r.poll, snapshot), snapshot[j];
    assert HasRecord(p.polledChain, b.number);
    var i :| 0 <= i < |p.polledChain| && p.polledChain[i].number == b.number;
    assert RecordSent(w, ag, r.hwm, p.polledChain[i], r.sent);
  }
}

/**
 Full mode: how far the steady state gets while the chain stays as it is.
 */
module FullProgress {
  import opened Blocks
  import opened AggregatedListener
  import opened GetLogsPolling
  import opened SteadyState
  import opened FullMode
  import EventStream

  // The snapshot replaces none of the recorded blocks
  ghost predicate Settled(p: Poll, headChain: seq<Block>) {
    forall r :: r in p.polledChain ==> !Replaced(r, headChain)
  }

  /** The check for a re-org leaves nothing to rewind for: done again with the same snapshot, it stays where it is. */
  lemma {:induction false} RewindSettles(p: Poll, headChain: seq<Block>)
    ensures Settled(AfterRewind(p, headChain), headChain)
    ensures Settled(p, headChain) ==> AfterRewind(p, headChain).fromBlock == p.fromBlock
  {
    if headChain != [] && p.polledChain != [] {
      var records := p.polledChain[FirstInWindow(p.polledChain, headChain[0].number, 0)..];
      var k := FirstReplaced(records, headChain, 0);
      assert k < |records| ==> records[k] in p.polledChain;
      forall r | r in records[..k]
        ensures !Replaced(r, headChain)
      {
        var i :| 0 <= i < k && records[i] == r;
      }
      assert k == |records| ==> records[..k] == records;
    }
  }

  lemma {:induction false} AdvanceSettled(p: Poll, headChain: seq<Block>, toBlock: int)
    requires Settled(p, headChain) && Linked(headChain)
    ensures Settled(AfterAdvance(p, headChain, toBlock), headChain)
  {
    BetweenSpec(headChain, p.fromBlock, toBlock);
    forall r | r in Between(headChain, p.fromBlock, toBlock)
      ensures !Replaced(r, headChain)
    {
      var j :| 0 <= j < |headChain| && headChain[j] == r;
      HashAtIndex(headChain, j);
    }
  }

  // Cycles at a head that stays, with the same snapshot, queries that succeed, and a page size
  ghost predicate Answers(inputs: seq<Input>, head: nat, snapshot: seq<Block>) {
    forall k :: 0 <= k < |inputs| ==>
      && inputs[k].chainHead == head && inputs[k].snapshot == snapshot && inputs[k].pageSize >= 1
      && CanReply(inputs[k]) && EventStream.Answered(inputs[k].reply, inputs[k].enrich)
  }

  function TotalSize(inputs: seq<Input>): int {
    if inputs == [] then 0 else TotalSize(inputs[..|inputs| - 1]) + inputs[|inputs| - 1].pageSize
  }

  function Ceiling(cfg: Config, head: nat, snapshot: seq<Block>): int {
    ScanCeiling(false, head, StableHead(head, cfg.checkpointBlockGap), snapshot)
  }

  // A group that has a page to poll, and is not too far behind for that, before it rewinds or after
  ghost predicate CanSweep(cfg: Config, s: Lead, ag: Aggregated, head: nat, snapshot: seq<Block>) {
    var fromBlock := AfterRewind(s.poll, snapshot).fromBlock;
    && !cfg.lightMode && ag.signatureSet != [] && HaveMarks(s.hwm, ag.listeners) && Linked(snapshot)
    && fromBlock <= Ceiling(cfg, head, snapshot)
    && !TooFarBehind(cfg, s.poll.fromBlock, head) && !TooFarBehind(cfg, fromBlock, head)
  }

  // One more cycle, from a position that needs no rewind
  lemma {:induction false} SweepOnce(cfg: Config, s: Lead, ag: Aggregated, i: Input, head: nat, snapshot: seq<Block>)
    requires !cfg.lightMode && ag.signatureSet != [] && Linked(snapshot) && Answers([i], head, snapshot)
    requires !TooFarBehind(cfg, s.poll.fromBlock, head)
    ensures CanReply([i][0])
    ensures var (r, from, ceiling) := (Cycle(cfg, s, ag, i).0, AfterRewind(s.poll, snapshot).fromBlock,
                                       Ceiling(cfg, head, snapshot));
            && Settled(r.poll, snapshot)
            && (from <= ceiling ==>
                 && r.poll.fromBlock == Min(from + i.pageSize, ceiling + 1)
                 && MovedUpTo(s, r, ag, Min(r.poll.fromBlock, StableHead(head, cfg.checkpointBlockGap))))
            && (from > ceiling ==> r == s.(poll := AfterRewind(s.poll, snapshot)))
  {
    assert CanReply([i][0]) && [i][0] == i;
    var p := AfterRewind(s.poll, snapshot);
    EventStream.AnsweredFilters(ag, Mark(s.hwm), i.reply.value, i.enrich);
    CycleMoves(cfg, s, ag, i);
    RewindSettles(s.poll, snapshot);
    AdvanceSettled(p, snapshot, Page(cfg, p, i));
  }

  lemma {:induction false} MovesCompose(s: Lead, r: Lead, r': Lead, ag: Aggregated, a: int, b: int)
    requires MovedUpTo(s, r, ag, a) && MovedUpTo(r, r', ag, b) && a <= b
    ensures MovedUpTo(s, r', ag, b)
  {
  }

  // Where a sweep has got to, from a position on
  ghost predicate SweptTo(
    cfg: Config, s: Lead, r: Lead, ag: Aggregated, head: nat, snapshot: seq<Block>, fromBlock: int, size: int)
  {
    && r.poll.fromBlock == Min(fromBlock + size, Ceiling(cfg, head, snapshot) + 1)
    && MovedUpTo(s, r, ag, Min(r.poll.fromBlock, StableHead(head, cfg.checkpointBlockGap)))
    && Settled(r.poll, snapshot)
  }

  lemma {:induction false} SweepStarts(cfg: Config, s: Lead, ag: Aggregated, i: Input, head: nat, snapshot: seq<Block>)
    requires CanSweep(cfg, s, ag, head, snapshot) && Answers([i], head, snapshot)
    ensures CanReply([i][0])
    ensures SweptTo(cfg, s, Cycle(cfg, s, ag, i).0, ag, head, snapshot, AfterRewind(s.poll, snapshot).fromBlock,
                    i.pageSize)
  {
    SweepOnce(cfg, s, ag, i, head, snapshot);
  }

  lemma {:induction false} SweepGoesOn(
    cfg: Config, s: Lead, r: Lead, ag: Aggregated, i: Input, head: nat, snapshot: seq<Block>, fromBlock: int, size: int)
    requires !cfg.lightMode && ag.signatureSet != [] && Linked(snapshot) && Answers([i], head, snapshot)
    requires fromBlock <= Ceiling(cfg, head, snapshot) && !TooFarBehind(cfg, fromBlock, head) && size >= 0
    requires SweptTo(cfg, s, r, ag, head, snapshot, fromBlock, size)
    ensures CanReply([i][0])
    ensures SweptTo(cfg, s, Cycle(cfg, r, ag, i).0, ag, head, snapshot, fromBlock, size + i.pageSize)
  {
    var stable, r' := StableHead(head, cfg.checkpointBlockGap), Cycle(cfg, r, ag, i).0;
    RewindSettles(r.poll, snapshot);
    SweepOnce(cfg, r, ag, i, head, snapshot);
    if r.poll.fromBlock <= Ceiling(cfg, head, snapshot) {
      MovesCompose(s, r, r', ag, Min(r.poll.fromBlock, stable), Min(r'.poll.fromBlock, stable));
    }
  }

  /** At a head that stays, with queries that succeed, each page takes the poll position on by its size, up to the
      ceiling of the scan, and the marks with it, up to the stable head. */
  lemma {:induction false} SweepMoves(
    cfg: Config, s: Lead, ag: Aggregated, inputs: seq<Input>, head: nat, snapshot: seq<Block>)
    requires CanSweep(cfg, s, ag, head, snapshot) && Answers(inputs, head, snapshot) && inputs != []
    ensures forall k :: 0 <= k < |inputs| ==> CanReply(inputs[k])
    ensures SweptTo(cfg, s, Run(cfg, s, ag, inputs), ag, head, snapshot, AfterRewind(s.poll, snapshot).fromBlock,
                    TotalSize(inputs))
    ensures TotalSize(inputs) >= |inputs|
    decreases |inputs|
  {
    var front, last := inputs[..|inputs| - 1], inputs[|inputs| - 1];
    assert forall k :: 0 <= k < |inputs| ==> CanReply(inputs[k]);
    if front == [] {
      SweepStarts(cfg, s, ag, last, head, snapshot);
      assert Run(cfg, s, ag, front) == s && TotalSize(front) == 0;
    } else {
      SweepMoves(cfg, s, ag, front, head, snapshot);
      SweepGoesOn(cfg, s, Run(cfg, s, ag, front), ag, last, head, snapshot, AfterRewind(s.poll, snapshot).fromBlock,
                  TotalSize(front));
    }
  }

  /** So within as many pages as the position is behind the ceiling, it is right behind that, and each mark and the
      position of the group are at the stable head, unless they were in front of it already. */
  lemma {:induction false} SweepReachesStable(
    cfg: Config, s: Lead, ag: Aggregated, inputs: seq<Input>, head: nat, snapshot: seq<Block>)
    requires CanSweep(cfg, s, ag, head, snapshot) && Answers(inputs, head, snapshot)
    requires |inputs| > Ceiling(cfg, head, snapshot) - AfterRewind(s.poll, snapshot).fromBlock
    ensures forall k :: 0 <= k < |inputs| ==> CanReply(inputs[k])
    ensures var (r, stable) := (Run(cfg, s, ag, inputs), StableHead(head, cfg.checkpointBlockGap));
            && r.poll.fromBlock == Ceiling(cfg, head, snapshot) + 1 && MovedUpTo(s, r, ag, stable)
            && (ag.listeners != [] ==> LowestMark(r.hwm, ag.listeners) >= stable)
            && (snapshot != [] && snapshot[|snapshot| - 1].number >= head ==> r.poll.fromBlock == head + 1)
  {
    SweepMoves(cfg, s, ag, inputs, head, snapshot);
    var (r, stable) := (Run(cfg, s, ag, inputs), StableHead(head, cfg.checkpointBlockGap));
    assert MovedUpTo(s, r, ag, stable);
    if ag.listeners != [] {
      LowestMoved(s, r, ag, stable);
    }
  }

  lemma {:induction false} LowestMoved(s: Lead, r: Lead, ag: Aggregated, block: int)
    requires MovedUpTo(s, r, ag, block) && HaveMarks(s.hwm, ag.listeners) && ag.listeners != []
    ensures LowestMark(r.hwm, ag.listeners) >= block
  {
    forall i | 0 <= i < |ag.listeners|
      ensures HasId(ag.listeners, ag.listeners[i].id)
    {
    }
    LowestMarkIsLowest(r.hwm, ag.listeners);
  }
}

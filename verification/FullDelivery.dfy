/**
 Full mode: what has become final. A polled block is compared with the canonical chain until it is behind the snapshot,
 so that no final block is lost as long as it becomes final before that.
 */
module FullDelivery {
  import opened Blocks
  import opened AggregatedListener
  import opened GetLogsPolling
  import opened SteadyState
  import opened FullMode
  import CanonicalChain
  import Handover

  // The logs of the block with a hash, and the chain that becomes final, once and for all
  datatype Chains = Chains(logs: Hash -> set<Log>, final: nat -> Hash)

  ghost predicate Sound(w: Chains) {
    forall n: nat, g: Log :: g in w.logs(w.final(n)) ==> g.blockNumber == n
  }

  // The blocks of the snapshot up to a number are final
  ghost predicate AgreesWithFinal(w: Chains, snapshot: seq<Block>, upTo: int) {
    forall j :: 0 <= j < |snapshot| && snapshot[j].number <= upTo ==> snapshot[j].hash == w.final(snapshot[j].number)
  }

  // The snapshot goes on from what was final in the cycle before, and reaches what is final now
  ghost predicate Overlaps(snapshot: seq<Block>, before: int, upTo: int) {
    && Linked(snapshot) && snapshot != []
    && snapshot[0].number <= before + 1 && upTo <= snapshot[|snapshot| - 1].number
  }

  // The page is answered from the chain of the snapshot, and from the final chain behind it
  ghost predicate AnswersChain(w: Chains, snapshot: seq<Block>, upTo: int, q: Query, logs: seq<Log>) {
    && AnswersSnapshot(World(w.logs), snapshot, q, logs)
    && forall n: nat, g :: n <= upTo && g in w.logs(w.final(n)) && Passes(q, g) ==> g in logs
  }

  // A cycle that does not hand control back. What is final reaches up to the stable head at least, at the time of the
  // snapshot.
  ghost predicate Environment(w: Chains, cfg: Config, ag: Aggregated, s: Lead, i: Input, before: int, upTo: int) {
    && StableHead(i.chainHead, cfg.checkpointBlockGap) <= upTo && before <= upTo
    && !TooFarBehind(cfg, s.poll.fromBlock, i.chainHead)
    && Overlaps(i.snapshot, before, upTo) && AgreesWithFinal(w, i.snapshot, upTo)
    && (i.reply.Some? ==>
         var p := AfterRewind(s.poll, i.snapshot);
         AnswersChain(w, i.snapshot, upTo, RangeQuery(ag, p.fromBlock, Page(cfg, p, i)), i.reply.value))
  }

  // ----- What is delivered -----

  // The logs of a version of a block were sent to each listener that wants them from its start on
  ghost predicate Delivered(w: Chains, ag: Aggregated, starts: map<Id, int>, h: Hash, n: int, sent: seq<Update>) {
    forall k, g ::
      && 0 <= k < |ag.listeners| && g in w.logs(h) && g.blockNumber == n
      && Wants(ag.listeners[k], Mark(starts)(ag.listeners[k].id), g) ==>
        Update(ag.listeners[k].id, g) in sent
  }

  ghost predicate RecordsDelivered(w: Chains, ag: Aggregated, starts: map<Id, int>, p: Poll, sent: seq<Update>) {
    forall r :: r in p.polledChain ==> Delivered(w, ag, starts, r.hash, r.number, sent)
  }

  ghost predicate FinalDelivered(
    w: Chains, ag: Aggregated, starts: map<Id, int>, from: int, to: int, sent: seq<Update>)
  {
    forall n: nat :: from <= n < to ==> Delivered(w, ag, starts, w.final(n), n, sent)
  }

  // A record of a block that is final by now is of the final version
  ghost predicate RecordsFinal(w: Chains, records: seq<Block>, upTo: int) {
    forall r :: r in records && r.number <= upTo ==> r.hash == w.final(r.number)
  }

  // No mark is past the larger of its start and a limit
  ghost predicate MarksWithin(ag: Aggregated, starts: map<Id, int>, hwm: map<Id, int>, limit: int) {
    forall k :: 0 <= k < |ag.listeners| ==>
      ag.listeners[k].id in hwm && hwm[ag.listeners[k].id] <= Max(Mark(starts)(ag.listeners[k].id), limit)
  }

  ghost predicate Inv(w: Chains, ag: Aggregated, starts: map<Id, int>, start: int, upTo: int, s: Lead) {
    && Covers(s.poll, start, upTo) && RecordsFinal(w, s.poll.polledChain, upTo)
    && RecordsDelivered(w, ag, starts, s.poll, s.sent)
    && FinalDelivered(w, ag, starts, start, Min(s.poll.fromBlock, upTo + 1), s.sent)
    && MarksWithin(ag, starts, s.hwm, s.poll.fromBlock) && MarksWithin(ag, starts, s.hwm, upTo)
  }

  // ----- The check for a re-org -----

  lemma {:induction false} HashAtMember(headChain: seq<Block>, n: int)
    requires HashAt(headChain, n).Some?
    ensures exists j ::
              && 0 <= j < |headChain| && headChain[j].number == n
              && Some(headChain[j].hash) == HashAt(headChain, n)
  {
    if headChain[0].number != n {
      HashAtMember(headChain[1..], n);
      var j :| 0 <= j < |headChain[1..]| && headChain[1..][j].number == n
               && Some(headChain[1..][j].hash) == HashAt(headChain[1..], n);
      assert headChain[j + 1] == headChain[1..][j];
    }
  }

  // A record of a final block is not replaced
  lemma {:induction false} FinalStays(w: Chains, r: Block, headChain: seq<Block>, upTo: int)
    requires AgreesWithFinal(w, headChain, upTo) && r.number <= upTo && r.hash == w.final(r.number)
    ensures !Replaced(r, headChain)
  {
    if HashAt(headChain, r.number).Some? {
      HashAtMember(headChain, r.number);
    }
  }

  ghost predicate ReplacedAt(p: Poll, headChain: seq<Block>, i: int)
    requires headChain != []
  {
    0 <= i < |p.polledChain| && headChain[0].number <= p.polledChain[i].number && Replaced(p.polledChain[i], headChain)
  }

  /** Which records the check looks at: it rewinds if and only if it replaces a record that is not behind the snapshot.
      A record that is behind it is dropped without a look, whatever became of its block. */
  lemma {:induction false} RewindsExactly(p: Poll, headChain: seq<Block>)
    requires Handover.RecordsOk(p) && headChain != []
    ensures AfterRewind(p, headChain).fromBlock != p.fromBlock <==> exists i :: ReplacedAt(p, headChain, i)
    ensures forall r :: r in AfterRewind(p, headChain).polledChain ==> r.number >= headChain[0].number
  {
    if p.polledChain != [] {
      LookedAt(p, headChain);
      if AfterRewind(p, headChain).fromBlock != p.fromBlock {
        RewoundTo(p, headChain);
      }
      forall i | ReplacedAt(p, headChain, i)
        ensures AfterRewind(p, headChain).fromBlock != p.fromBlock
      {
        ReplacedRewinds(p, headChain, i);
      }
    }
  }

  lemma {:induction false} LookedAt(p: Poll, headChain: seq<Block>)
    requires Ascending(p.polledChain) && headChain != []
    ensures var k := FirstInWindow(p.polledChain, headChain[0].number, 0);
            && (forall i :: 0 <= i < |p.polledChain| ==> (i >= k <==> p.polledChain[i].number >= headChain[0].number))
            && forall r :: r in AfterRewind(p, headChain).polledChain ==> r.number >= headChain[0].number
  {
    FirstInWindowSpec(p.polledChain, headChain[0].number, 0);
    Handover.FirstInWindowStops(p.polledChain, headChain[0].number, 0);
  }

  lemma {:induction false} RewoundTo(p: Poll, headChain: seq<Block>)
    requires headChain != [] && AfterRewind(p, headChain).fromBlock != p.fromBlock && Ascending(p.polledChain)
    ensures exists i :: ReplacedAt(p, headChain, i)
  {
    LookedAt(p, headChain);
    var k := FirstInWindow(p.polledChain, headChain[0].number, 0);
    var m := FirstReplaced(p.polledChain[k..], headChain, 0);
    assert p.polledChain[k..][m] == p.polledChain[k + m];
    assert ReplacedAt(p, headChain, k + m);
  }

  lemma {:induction false} ReplacedRewinds(p: Poll, headChain: seq<Block>, i: int)
    requires Handover.RecordsOk(p) && headChain != [] && ReplacedAt(p, headChain, i)
    ensures AfterRewind(p, headChain).fromBlock < p.fromBlock
  {
    LookedAt(p, headChain);
    var k := FirstInWindow(p.polledChain, headChain[0].number, 0);
    assert p.polledChain[k..][i - k] == p.polledChain[i];
    var m := FirstReplaced(p.polledChain[k..], headChain, 0);
    assert p.polledChain[k..][m] == p.polledChain[k + m];
  }

  // The check rewinds to nothing that was final in the cycle before
  lemma {:induction false} RewindStops(w: Chains, p: Poll, headChain: seq<Block>, before: int, upTo: int)
    requires AgreesWithFinal(w, headChain, upTo) && RecordsFinal(w, p.polledChain, before) && before <= upTo
    ensures AfterRewind(p, headChain).fromBlock == p.fromBlock || AfterRewind(p, headChain).fromBlock > before
  {
    if headChain != [] && p.polledChain != [] {
      var records := p.polledChain[FirstInWindow(p.polledChain, headChain[0].number, 0)..];
      var k := FirstReplaced(records, headChain, 0);
      if k < |records| && records[k].number <= before {
        assert records[k] in p.polledChain;
        FinalStays(w, records[k], headChain, upTo);
      }
    }
  }

  // What is left of the records after the check is of the final version, up to what is final now
  lemma {:induction false} RewindFinal(w: Chains, p: Poll, start: int, headChain: seq<Block>, before: int, upTo: int)
    requires Covers(p, start, before) && before <= upTo
    requires Overlaps(headChain, before, upTo) && AgreesWithFinal(w, headChain, upTo)
    ensures RecordsFinal(w, AfterRewind(p, headChain).polledChain, upTo)
  {
    RewindCovers(p, start, before, headChain);
    var records := AfterRewind(p, headChain).polledChain;
    if records != [] {
      LookedAt(p, headChain);
      forall r | r in records && r.number <= upTo
        ensures r.hash == w.final(r.number)
      {
        var i :| 0 <= i < |records| && records[i] == r;
        SnapshotHas(headChain, r.number);
        var b :| b in headChain && b.number == r.number;
        var j :| 0 <= j < |headChain| && headChain[j] == b;
      }
    }
  }

  // What became final since the cycle before, and is still behind the position, was delivered in its final version
  lemma {:induction false} RewindDelivered(
    w: Chains, ag: Aggregated, starts: map<Id, int>, s: Lead, start: int, headChain: seq<Block>, before: int, upTo: int)
    requires Inv(w, ag, starts, start, before, s) && before <= upTo
    requires Overlaps(headChain, before, upTo) && AgreesWithFinal(w, headChain, upTo)
    ensures var p := AfterRewind(s.poll, headChain);
            && RecordsDelivered(w, ag, starts, p, s.sent)
            && FinalDelivered(w, ag, starts, start, Min(p.fromBlock, upTo + 1), s.sent)
  {
    var p := AfterRewind(s.poll, headChain);
    RewindCovers(s.poll, start, before, headChain);
    RewindFinal(w, s.poll, start, headChain, before, upTo);
    assert forall r :: r in p.polledChain ==> r in s.poll.polledChain;
    forall n: nat | start <= n < Min(p.fromBlock, upTo + 1)
      ensures Delivered(w, ag, starts, w.final(n), n, s.sent)
    {
      if n > before {
        assert HasRecord(p.polledChain, n);
        FinalRecord(w, ag, starts, p, s.sent, n, upTo);
      }
    }
  }

  lemma {:induction false} FinalRecord(
    w: Chains, ag: Aggregated, starts: map<Id, int>, p: Poll, sent: seq<Update>, n: nat, upTo: int)
    requires RecordsFinal(w, p.polledChain, upTo) && RecordsDelivered(w, ag, starts, p, sent) && n <= upTo
    requires HasRecord(p.polledChain, n)
    ensures Delivered(w, ag, starts, w.final(n), n, sent)
  {
    var i :| 0 <= i < |p.polledChain| && p.polledChain[i].number == n;
    assert p.polledChain[i] in p.polledChain;
  }

  lemma {:induction false} RewindKeepsInv(
    w: Chains, ag: Aggregated, starts: map<Id, int>, s: Lead, start: int, headChain: seq<Block>, before: int, upTo: int)
    requires Inv(w, ag, starts, start, before, s) && before <= upTo
    requires Overlaps(headChain, before, upTo) && AgreesWithFinal(w, headChain, upTo)
    ensures Inv(w, ag, starts, start, upTo, s.(poll := AfterRewind(s.poll, headChain)))
  {
    HigherStableCovers(s.poll, start, before, upTo);
    RewindCovers(s.poll, start, upTo, headChain);
    RewindFinal(w, s.poll, start, headChain, before, upTo);
    RewindDelivered(w, ag, starts, s, start, headChain, before, upTo);
    RewindStops(w, s.poll, headChain, before, upTo);
  }

  // ----- The page -----

  // A version of a block that the page covers, and whose logs are in the answer, is delivered
  lemma {:induction false} PageDelivers(
    w: Chains, ag: Aggregated, starts: map<Id, int>, hwm: map<Id, int>, h: Hash, n: int, fromBlock: int, toBlock: int,
    logs: seq<Log>, events: seq<Update>, sent: seq<Update>)
    requires IsIndex(ag, ag.listeners) && MarksWithin(ag, starts, hwm, fromBlock) && fromBlock <= n <= toBlock
    requires forall g ::
               g in w.logs(h) && g.blockNumber == n && Passes(RangeQuery(ag, fromBlock, toBlock), g) ==> g in logs
    requires events == BruteForce(ag.listeners, Mark(hwm), logs)
    ensures Delivered(w, ag, starts, h, n, sent + events)
  {
    forall k, g |
      && 0 <= k < |ag.listeners| && g in w.logs(h) && g.blockNumber == n
      && Wants(ag.listeners[k], Mark(starts)(ag.listeners[k].id), g)
      ensures Update(ag.listeners[k].id, g) in sent + events
    {
      var id := ag.listeners[k].id;
      QueryExcludesNone(ag, ag.listeners, fromBlock, toBlock, Mark(starts)(id), k, g);
      assert Wants(ag.listeners[k], Mark(hwm)(id), g);
      BruteForceMember(ag.listeners, Mark(hwm), logs, Update(id, g));
    }
  }

  lemma {:induction false} AdvanceDelivered(
    w: Chains, ag: Aggregated, starts: map<Id, int>, start: int, upTo: int, s: Lead, headChain: seq<Block>,
    toBlock: int, logs: seq<Log>, events: seq<Update>)
    requires IsIndex(ag, ag.listeners) && Sound(w) && Inv(w, ag, starts, start, upTo, s) && Linked(headChain)
    requires AnswersChain(w, headChain, upTo, RangeQuery(ag, s.poll.fromBlock, toBlock), logs)
    requires events == BruteForce(ag.listeners, Mark(s.hwm), logs) && s.poll.fromBlock <= toBlock
    ensures RecordsDelivered(w, ag, starts, AfterAdvance(s.poll, headChain, toBlock), s.sent + events)
    ensures FinalDelivered(w, ag, starts, start, Min(toBlock + 1, upTo + 1), s.sent + events)
  {
    var from, p' := s.poll.fromBlock, AfterAdvance(s.poll, headChain, toBlock);
    BetweenSpec(headChain, from, toBlock);
    forall r | r in p'.polledChain
      ensures Delivered(w, ag, starts, r.hash, r.number, s.sent + events)
    {
      if r !in s.poll.polledChain {
        var j :| 0 <= j < |headChain| && headChain[j] == r;
        PageDelivers(w, ag, starts, s.hwm, r.hash, r.number, from, toBlock, logs, events, s.sent);
      } else {
        assert Delivered(w, ag, starts, r.hash, r.number, s.sent);
      }
    }
    forall n: nat | start <= n < Min(toBlock + 1, upTo + 1)
      ensures Delivered(w, ag, starts, w.final(n), n, s.sent + events)
    {
      if n < from {
        assert Delivered(w, ag, starts, w.final(n), n, s.sent);
      } else {
        PageDelivers(w, ag, starts, s.hwm, w.final(n), n, from, toBlock, logs, events, s.sent);
      }
    }
  }

  lemma {:induction false} AdvanceKeepsInv(
    w: Chains, cfg: Config, ag: Aggregated, starts: map<Id, int>, start: int, upTo: int, s: Lead, i: Input,
    before: int)
    requires IsIndex(ag, ag.listeners) && Sound(w) && !cfg.lightMode && CanReply(i)
    requires Inv(w, ag, starts, start, upTo, s) && Overlaps(i.snapshot, before, upTo) && before <= upTo
    requires AgreesWithFinal(w, i.snapshot, upTo) && StableHead(i.chainHead, cfg.checkpointBlockGap) <= upTo
    requires Scan(cfg, s, ag, i, s.poll).1.Polled?
    requires AnswersChain(w, i.snapshot, upTo, RangeQuery(ag, s.poll.fromBlock, Page(cfg, s.poll, i)), i.reply.value)
    ensures Inv(w, ag, starts, start, upTo, Scan(cfg, s, ag, i, s.poll).0)
  {
    var toBlock, events := Page(cfg, s.poll, i), BruteForce(ag.listeners, Mark(s.hwm), i.reply.value);
    IndexRefinesBruteForce(ag, ag.listeners, Mark(s.hwm), i.reply.value, i.enrich);
    AdvanceCovers(s.poll, start, upTo, i.snapshot, toBlock);
    AdvanceDelivered(w, ag, starts, start, upTo, s, i.snapshot, toBlock, i.reply.value, events);
    AdvanceFinal(w, s.poll, i.snapshot, toBlock, upTo);
    ScanMarks(cfg, ag, starts, upTo, s, i);
    assert Scan(cfg, s, ag, i, s.poll).0.sent == s.sent + events;
  }

  lemma {:induction false} ScanMarks(
    cfg: Config, ag: Aggregated, starts: map<Id, int>, upTo: int, s: Lead, i: Input)
    requires !cfg.lightMode && CanReply(i) && Scan(cfg, s, ag, i, s.poll).1.Polled?
    requires StableHead(i.chainHead, cfg.checkpointBlockGap) <= upTo
    requires MarksWithin(ag, starts, s.hwm, s.poll.fromBlock) && MarksWithin(ag, starts, s.hwm, upTo)
    ensures var r := Scan(cfg, s, ag, i, s.poll).0;
            && r.poll == AfterAdvance(s.poll, i.snapshot, Page(cfg, s.poll, i))
            && MarksWithin(ag, starts, r.hwm, r.poll.fromBlock) && MarksWithin(ag, starts, r.hwm, upTo)
  {
    var toBlock := Page(cfg, s.poll, i);
    var mark := HwmBlock(cfg, StableHead(i.chainHead, cfg.checkpointBlockGap), s.poll.fromBlock, toBlock);
    MarksMoved(ag, starts, s.hwm, mark, s.poll.fromBlock, toBlock + 1);
    MarksMoved(ag, starts, s.hwm, mark, upTo, upTo);
  }

  lemma {:induction false} AdvanceFinal(w: Chains, p: Poll, headChain: seq<Block>, toBlock: int, upTo: int)
    requires Linked(headChain) && AgreesWithFinal(w, headChain, upTo) && RecordsFinal(w, p.polledChain, upTo)
    ensures RecordsFinal(w, AfterAdvance(p, headChain, toBlock).polledChain, upTo)
  {
    BetweenSpec(headChain, p.fromBlock, toBlock);
  }

  lemma {:induction false} MarksMoved(
    ag: Aggregated, starts: map<Id, int>, hwm: map<Id, int>, mark: int, limit: int, limit': int)
    requires MarksWithin(ag, starts, hwm, limit) && limit <= limit' && mark <= limit'
    ensures MarksWithin(ag, starts, MoveForwards(hwm, ag.listeners, mark), limit')
  {
  }

  // ----- Runs -----

  lemma {:induction false} CycleKeepsInv(
    w: Chains, cfg: Config, ag: Aggregated, starts: map<Id, int>, start: int, s: Lead, i: Input, before: int, upTo: int)
    requires IsIndex(ag, ag.listeners) && ag.signatureSet != [] && Sound(w) && !cfg.lightMode && CanReply(i)
    requires Inv(w, ag, starts, start, before, s) && Environment(w, cfg, ag, s, i, before, upTo)
    ensures Inv(w, ag, starts, start, upTo, Cycle(cfg, s, ag, i).0)
  {
    var s1 := s.(poll := AfterRewind(s.poll, i.snapshot));
    RewindKeepsInv(w, ag, starts, s, start, i.snapshot, before, upTo);
    if Cycle(cfg, s, ag, i).1.Polled? {
      AdvanceKeepsInv(w, cfg, ag, starts, start, upTo, s1, i, before);
    }
  }

  // finals are the blocks up to which the chain is final at the time of the snapshots. In the first cycle there is
  // nothing to compare, so its snapshot may begin one past that.
  ghost predicate RunEnvironment(
    w: Chains, cfg: Config, ag: Aggregated, s: Lead, inputs: seq<Input>, finals: seq<int>)
    requires forall k :: 0 <= k < |inputs| ==> CanReply(inputs[k])
  {
    |finals| == |inputs| &&
    (inputs == [] ||
      var last := |inputs| - 1;
      && RunEnvironment(w, cfg, ag, s, inputs[..last], finals[..last])
      && Environment(w, cfg, ag, Run(cfg, s, ag, inputs[..last]), inputs[last],
                     finals[if last > 0 then last - 1 else 0], finals[last]))
  }

  lemma {:induction false} InvAtReset(w: Chains, ag: Aggregated, starts: map<Id, int>, start: int, upTo: int, s: Lead)
    requires s.poll == Poll(start, [], map[]) && s.hwm == starts && HaveMarks(starts, ag.listeners)
    ensures Inv(w, ag, starts, start, upTo, s)
  {
  }

  lemma {:induction false} RunKeepsInv(
    w: Chains, cfg: Config, ag: Aggregated, starts: map<Id, int>, start: int, s: Lead, inputs: seq<Input>,
    finals: seq<int>)
    requires IsIndex(ag, ag.listeners) && ag.signatureSet != [] && Sound(w) && !cfg.lightMode
    requires s.poll == Poll(start, [], map[]) && s.hwm == starts && HaveMarks(starts, ag.listeners)
    requires forall k :: 0 <= k < |inputs| ==> CanReply(inputs[k])
    requires RunEnvironment(w, cfg, ag, s, inputs, finals) && inputs != []
    ensures Inv(w, ag, starts, start, finals[|finals| - 1], Run(cfg, s, ag, inputs))
    decreases |inputs|
  {
    var last := |inputs| - 1;
    if last == 0 {
      InvAtReset(w, ag, starts, start, finals[0], s);
      CycleKeepsInv(w, cfg, ag, starts, start, s, inputs[0], finals[0], finals[0]);
      assert inputs[..0] == [];
    } else {
      RunKeepsInv(w, cfg, ag, starts, start, s, inputs[..last], finals[..last]);
      var r := Run(cfg, s, ag, inputs[..last]);
      CycleKeepsInv(w, cfg, ag, starts, start, r, inputs[last], finals[last - 1], finals[last]);
    }
  }

  /** Full mode loses nothing: over any run of the loop from a reset, if the chain is final up to the stable head or
      further, and each snapshot goes on from what was final in the cycle before and reaches what is final now, each
      listener was sent every log it wants of every final block behind the poll position. */
  lemma {:induction false} FullModeLosesNothing(
    w: Chains, cfg: Config, ag: Aggregated, starts: map<Id, int>, start: int, s: Lead, inputs: seq<Input>,
    finals: seq<int>)
    requires IsIndex(ag, ag.listeners) && ag.signatureSet != [] && Sound(w) && !cfg.lightMode
    requires s.poll == Poll(start, [], map[]) && s.hwm == starts && HaveMarks(starts, ag.listeners)
    requires forall k :: 0 <= k < |inputs| ==> CanReply(inputs[k])
    requires RunEnvironment(w, cfg, ag, s, inputs, finals) && inputs != []
    ensures var r := Run(cfg, s, ag, inputs);
            && s.sent <= r.sent
            && forall n: nat, k, g ::
                 && start <= n < r.poll.fromBlock && n <= finals[|finals| - 1]
                 && 0 <= k < |ag.listeners| && g in w.logs(w.final(n))
                 && Wants(ag.listeners[k], starts[ag.listeners[k].id], g) ==>
                   Update(ag.listeners[k].id, g) in r.sent[|s.sent|..]
  {
    var s0 := s.(sent := []);
    RunPushes(cfg, s, ag, inputs);
    SameEnvironment(w, cfg, ag, s, inputs, finals);
    RunKeepsInv(w, cfg, ag, starts, start, s0, inputs, finals);
    var r := Run(cfg, s0, ag, inputs);
    assert Run(cfg, s, ag, inputs).sent[|s.sent|..] == r.sent;
    forall n: nat, k, g |
      && start <= n < r.poll.fromBlock && n <= finals[|finals| - 1]
      && 0 <= k < |ag.listeners| && g in w.logs(w.final(n))
      && Wants(ag.listeners[k], starts[ag.listeners[k].id], g)
      ensures Update(ag.listeners[k].id, g) in r.sent
    {
      assert Delivered(w, ag, starts, w.final(n), n, r.sent);
    }
  }

  // What was pushed before the run does not matter to the nodes
  lemma {:induction false} SameEnvironment(
    w: Chains, cfg: Config, ag: Aggregated, s: Lead, inputs: seq<Input>, finals: seq<int>)
    requires forall k :: 0 <= k < |inputs| ==> CanReply(inputs[k])
    requires RunEnvironment(w, cfg, ag, s, inputs, finals)
    ensures RunEnvironment(w, cfg, ag, s.(sent := []), inputs, finals)
    decreases |inputs|
  {
    if inputs != [] {
      var last := |inputs| - 1;
      SameEnvironment(w, cfg, ag, s, inputs[..last], finals[..last]);
      RunPushes(cfg, s, ag, inputs[..last]);
    }
  }

  /** The block listener's list, trimmed to the monitored length and up to the head, goes on from what was final in the
      cycle before, if and only if what is stable now was final then. */
  lemma {:induction false} TrimmedListOverlaps(v: CanonicalChain.View, monitored: nat, before: int)
    requires CanonicalChain.Inv(v) && monitored > 0 && |v.chain| == monitored <= v.highestBlock
    requires v.chain[|v.chain| - 1].number == v.highestBlock && before <= v.highestBlock
    ensures Overlaps(v.chain, before, before) <==> StableHead(v.highestBlock, monitored) <= before
  {
    LinkedNumbers(v.chain, |v.chain| - 1);
  }

  // ----- A record that is dropped without a look -----

  const EARLY := [Block(4, 14, 13), Block(5, 15, 14)]

  const LATE := [Block(8, 28, 27), Block(9, 29, 28)]

  // The log of the final block 5, which replaces the one that was polled
  const MISSED := Log(5, 25, 0, 0, [7], 1)

  const WITH_MISSED := Chains(h => if h == 25 then {MISSED} else {}, n => 20 + n)

  const FIRST := Input(5, EARLY, 2, Some([]), Handover.ALWAYS)

  const SECOND := Input(9, LATE, 2, Some([]), Handover.ALWAYS)

  const AT_FOUR := Lead(Poll(4, [], map[]), map[1 := 4], map[], 0, [])

  const AT_SIX := Lead(Poll(6, EARLY, map[]), map[1 := 4], map[], 4, [])

  const AT_EIGHT := Lead(Poll(8, [], map[]), map[1 := 8], map[], 8, [])

  lemma {:induction false} FirstPolls()
    ensures Cycle(Handover.CFG, AT_FOUR, Handover.GROUP, FIRST) == (AT_SIX, Polled)
  {
    GroupMoves(4);
    assert EARLY[..1][..0] == [] && Between(EARLY[..1], 4, 5) == EARLY[..1] && Between(EARLY, 4, 5) == EARLY;
    assert Page(Handover.CFG, AT_FOUR.poll, FIRST) == 5;
    assert AfterAdvance(AT_FOUR.poll, EARLY, 5) == AT_SIX.poll;
    assert Deliver(Handover.CFG, AT_FOUR, Handover.GROUP, FIRST, AT_FOUR.poll, 5, [], []) == AT_SIX;
    assert Scan(Handover.CFG, AT_FOUR, Handover.GROUP, FIRST, AT_FOUR.poll) == (AT_SIX, Polled);
  }

  lemma {:induction false} LateBetween()
    ensures Between(LATE, 6, 7) == []
  {
    var one := LATE[..1];
    assert one[..0] == [] && Between(one[..0], 6, 7) == [];
    assert Between(one, 6, 7) == [];
    assert LATE[..|LATE| - 1] == one;
  }

  lemma {:induction false} SecondDrops()
    ensures Cycle(Handover.CFG, AT_SIX, Handover.GROUP, SECOND) == (AT_EIGHT, Polled)
  {
    GroupMoves(8);
    var p := Poll(6, [], map[]);
    assert FirstInWindow(EARLY, 8, 0) == 2 && AfterRewind(AT_SIX.poll, LATE) == p;
    LateBetween();
    assert Page(Handover.CFG, p, SECOND) == 7 && AfterAdvance(p, LATE, 7) == AT_EIGHT.poll;
    assert Deliver(Handover.CFG, AT_SIX, Handover.GROUP, SECOND, p, 7, [], []) == AT_EIGHT;
    assert Scan(Handover.CFG, AT_SIX, Handover.GROUP, SECOND, p) == (AT_EIGHT, Polled);
  }

  lemma {:induction false} GroupMoves(mark: int)
    requires mark >= 4
    ensures MoveForwards(map[1 := 4], Handover.GROUP.listeners, mark) == map[1 := mark]
    ensures FilterLogs(Handover.GROUP, Mark(map[1 := 4]), [], Handover.ALWAYS) == Some([])
  {
    assert Handover.GROUP.listeners[0].id == 1;
  }

  /** What is lost when a snapshot does not go on from what was final in the cycle before: blocks 4 and 5 are polled,
      block 5 is replaced, and the next snapshot begins at block 8. The record of block 5 is dropped without a look, and
      the log of the final block 5 is never sent, although the position is past it. */
  lemma {:induction false} GapLosesBlock()
    ensures CanReply(FIRST) && CanReply(SECOND) && Sound(WITH_MISSED) && Linked(EARLY) && Linked(LATE)
    ensures var r := Run(Handover.CFG, AT_FOUR, Handover.GROUP, [FIRST, SECOND]);
            && r.poll.fromBlock == 8 && r.sent == []
            && MISSED in WITH_MISSED.logs(WITH_MISSED.final(5)) && Wants(Handover.LISTENER, 4, MISSED)
    ensures LATE[0].number > StableHead(FIRST.chainHead, Handover.CFG.checkpointBlockGap) + 1
  {
    RunToEight();
    MissedIsWanted();
  }

  lemma {:induction false} RunToEight()
    ensures CanReply(FIRST) && CanReply(SECOND)
    ensures Run(Handover.CFG, AT_FOUR, Handover.GROUP, [FIRST, SECOND]) == AT_EIGHT
  {
    var inputs := [FIRST, SECOND];
    FirstPolls();
    SecondDrops();
    assert inputs[..1] == [FIRST] && inputs[..1][..0] == [];
    assert Run(Handover.CFG, AT_FOUR, Handover.GROUP, inputs[..1]) == AT_SIX;
  }

  lemma {:induction false} MissedIsWanted()
    ensures MISSED in WITH_MISSED.logs(WITH_MISSED.final(5)) && Wants(Handover.LISTENER, 4, MISSED)
    ensures Sound(WITH_MISSED) && Linked(EARLY) && Linked(LATE)
  {
    assert Handover.LISTENER.filters[0] in Handover.LISTENER.filters;
  }
}

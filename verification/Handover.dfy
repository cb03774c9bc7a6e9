/**
 The steady state hands control back to catchup when it is too far behind, and catchup hands it on when it is not.
 They must agree, or control bounces between them without anything being polled.
 */
module Handover {
  import opened Blocks
  import opened AggregatedListener
  import opened GetLogsPolling
  import opened SteadyState
  import opened EventStream
  import opened FullMode
  import CanonicalChain

  // Both loops refuse to poll at this head
  ghost predicate Bounces(cfg: Config, s: Lead, ag: Aggregated, i: Input) {
    CanReply(i) && Cycle(cfg, s, ag, i).1.Reverted? && CatchupPage(cfg, s, ag, i).1.UpToDate?
  }

  // A group with listeners, which all have signatures
  ghost predicate IsGroup(cfg: Config, s: Lead, ag: Aggregated) {
    && ag.listeners != [] && ag.signatureSet != [] && HaveMarks(s.hwm, ag.listeners) && cfg.catchupThreshold >= 1
  }

  ghost predicate CanReplyAll(inputs: seq<Input>) {
    forall k :: 0 <= k < |inputs| ==> CanReply(inputs[k])
  }

  // ----- From catchup to the steady state -----

  /** When catchup is done, the steady state that starts from there does not hand control back at that head, and
      catchup did poll if it was called because the lowest mark was too far behind. */
  lemma {:induction false} CatchupHandsOver(
    cfg: Config, s: Lead, ag: Aggregated, inputs: seq<Input>, head: nat, next: Input)
    requires IsGroup(cfg, s, ag) && CanCatchUp(cfg, s, ag, inputs)
    requires forall k :: 0 <= k < |inputs| ==>
             inputs[k].chainHead == head && Answered(inputs[k].reply, inputs[k].enrich)
    requires inputs != [] && |inputs| > StableHead(head, cfg.checkpointBlockGap) - LowestMark(s.hwm, ag.listeners)
    requires CanReply(next) && next.chainHead == head
    ensures var (r, status) := CatchupRun(cfg, s, ag, inputs);
            && status == UpToDate && !Cycle(cfg, Restarted(r, ag.listeners), ag, next).1.Reverted?
            && (Cycle(cfg, Restarted(s, ag.listeners), ag, next).1.Reverted? ==>
              CatchupRanges(cfg, s, ag, inputs) != [])
  {
    CatchupEnds(cfg, s, ag, inputs, head);
  }

  // ----- Light mode -----

  lemma {:induction false} LightCycle(cfg: Config, s: Lead, ag: Aggregated, i: Input)
    requires cfg.lightMode && IsGroup(cfg, s, ag) && CanReply(i) && s.poll.fromBlock == LowestMark(s.hwm, ag.listeners)
    ensures var r := Cycle(cfg, s, ag, i).0;
            IsGroup(cfg, r, ag) && r.poll.fromBlock == LowestMark(r.hwm, ag.listeners)
  {
    if Cycle(cfg, s, ag, i).1.Polled? {
      var stable := StableHead(i.chainHead, cfg.checkpointBlockGap);
      LowestMarkMoves(s.hwm, ag.listeners, HwmBlock(cfg, stable, s.poll.fromBlock, Page(cfg, s.poll, i)));
    }
  }

  lemma {:induction false} LightRun(cfg: Config, s: Lead, ag: Aggregated, inputs: seq<Input>)
    requires cfg.lightMode && IsGroup(cfg, s, ag) && CanReplyAll(inputs)
    ensures var r := Run(cfg, Restarted(s, ag.listeners), ag, inputs);
            IsGroup(cfg, r, ag) && r.poll.fromBlock == LowestMark(r.hwm, ag.listeners)
    decreases |inputs|
  {
    if inputs != [] {
      var front := inputs[..|inputs| - 1];
      LightRun(cfg, s, ag, front);
      LightCycle(cfg, Run(cfg, Restarted(s, ag.listeners), ag, front), ag, inputs[|inputs| - 1]);
    }
  }

  /** In light mode control never bounces: over any run from where the position was established, at any head, a cycle
      that hands control back finds catchup with a page to poll. */
  lemma {:induction false} LightNeverBounces(cfg: Config, s: Lead, ag: Aggregated, inputs: seq<Input>, next: Input)
    requires cfg.lightMode && IsGroup(cfg, s, ag) && CanReplyAll(inputs) && CanReply(next)
    ensures var r := Run(cfg, Restarted(s, ag.listeners), ag, inputs);
            && !Bounces(cfg, r, ag, next)
            && (Cycle(cfg, r, ag, next).1.Reverted? ==>
                 cfg.catchupThreshold <
                   StableHead(next.chainHead, cfg.checkpointBlockGap) - LowestMark(r.hwm, ag.listeners))
  {
    LightRun(cfg, s, ag, inputs);
  }

  // ----- Full mode -----

  // The position is not behind the lowest mark
  ghost predicate Ahead(s: Lead, ag: Aggregated) {
    LowestMark(s.hwm, ag.listeners) <= s.poll.fromBlock
  }

  // The first polled block that the snapshot replaces is behind the lowest mark
  ghost predicate RewindsBehind(s: Lead, ag: Aggregated, i: Input) {
    AfterRewind(s.poll, i.snapshot).fromBlock < LowestMark(s.hwm, ag.listeners)
  }

  // The cycle rewinds behind the lowest mark, and no page comes that reaches back to it
  ghost predicate FallsBehind(cfg: Config, s: Lead, ag: Aggregated, i: Input)
    requires CanReply(i)
  {
    var p := AfterRewind(s.poll, i.snapshot);
    && ag.signatureSet != [] && !TooFarBehind(cfg, s.poll.fromBlock, i.chainHead) && RewindsBehind(s, ag, i)
    && !(PageComes(cfg, s, ag, i, p) && Page(cfg, p, i) + 1 >= LowestMark(s.hwm, ag.listeners))
  }

  /** Some head from this one on makes control bounce, if and only if the position is two or more blocks behind the
      lowest mark, and catchup has nothing to poll at this head yet. */
  lemma {:induction false} BouncesExactly(cfg: Config, s: Lead, ag: Aggregated, head: nat)
    requires IsGroup(cfg, s, ag) && s.poll.fromBlock >= 0
    ensures var lowest := LowestMark(s.hwm, ag.listeners);
            (exists i: Input :: i.chainHead >= head && Bounces(cfg, s, ag, i)) <==>
              s.poll.fromBlock + 2 <= lowest && StableHead(head, cfg.checkpointBlockGap) < lowest + cfg.catchupThreshold
  {
    var lowest := LowestMark(s.hwm, ag.listeners);
    if s.poll.fromBlock + 2 <= lowest && StableHead(head, cfg.checkpointBlockGap) < lowest + cfg.catchupThreshold {
      var behind: nat := s.poll.fromBlock + cfg.catchupThreshold + 1;
      var later: nat :=
        if StableHead(head, cfg.checkpointBlockGap) >= behind then head else behind + cfg.checkpointBlockGap;
      var i := Input(later, [], 1, None, (_, _, _) => true);
      assert Bounces(cfg, s, ag, i);
    }
  }

  lemma {:induction false} FullCycle(cfg: Config, s: Lead, ag: Aggregated, i: Input)
    requires !cfg.lightMode && IsGroup(cfg, s, ag) && CanReply(i) && Ahead(s, ag)
    ensures var r := Cycle(cfg, s, ag, i).0;
            IsGroup(cfg, r, ag) && (Ahead(r, ag) <==> !FallsBehind(cfg, s, ag, i))
  {
    if Cycle(cfg, s, ag, i).1.Polled? {
      var stable, p := StableHead(i.chainHead, cfg.checkpointBlockGap), AfterRewind(s.poll, i.snapshot);
      LowestMarkMoves(s.hwm, ag.listeners, HwmBlock(cfg, stable, p.fromBlock, Page(cfg, p, i)));
    }
  }

  // At the end of the run, and before
  ghost predicate AlwaysAhead(cfg: Config, s: Lead, ag: Aggregated, inputs: seq<Input>)
    requires CanReplyAll(inputs)
  {
    Ahead(Run(cfg, s, ag, inputs), ag) && (inputs == [] || AlwaysAhead(cfg, s, ag, inputs[..|inputs| - 1]))
  }

  ghost predicate NeverFallsBehind(cfg: Config, s: Lead, ag: Aggregated, inputs: seq<Input>)
    requires CanReplyAll(inputs)
  {
    inputs == [] ||
      var front, last := inputs[..|inputs| - 1], inputs[|inputs| - 1];
      NeverFallsBehind(cfg, s, ag, front) && !FallsBehind(cfg, Run(cfg, s, ag, front), ag, last)
  }

  /** In full mode the position stays at or in front of the lowest mark all along a run, if and only if no cycle
      rewinds behind that mark without polling its way back. */
  lemma {:induction false} StaysAheadExactly(cfg: Config, s: Lead, ag: Aggregated, inputs: seq<Input>)
    requires !cfg.lightMode && IsGroup(cfg, s, ag) && CanReplyAll(inputs) && Ahead(s, ag)
    ensures AlwaysAhead(cfg, s, ag, inputs) <==> NeverFallsBehind(cfg, s, ag, inputs)
    ensures AlwaysAhead(cfg, s, ag, inputs) ==> IsGroup(cfg, Run(cfg, s, ag, inputs), ag)
    decreases |inputs|
  {
    if inputs != [] {
      var front := inputs[..|inputs| - 1];
      StaysAheadExactly(cfg, s, ag, front);
      if AlwaysAhead(cfg, s, ag, front) {
        FullCycle(cfg, Run(cfg, s, ag, front), ag, inputs[|inputs| - 1]);
      }
    }
  }

  /** While no cycle of a run from where the position was established falls behind, control never bounces, at any
      head. */
  lemma {:induction false} FullNeverBouncesWhileAhead(
    cfg: Config, s: Lead, ag: Aggregated, inputs: seq<Input>, next: Input)
    requires !cfg.lightMode && IsGroup(cfg, s, ag) && CanReplyAll(inputs) && CanReply(next)
    requires NeverFallsBehind(cfg, Restarted(s, ag.listeners), ag, inputs)
    ensures !Bounces(cfg, Run(cfg, Restarted(s, ag.listeners), ag, inputs), ag, next)
  {
    StaysAheadExactly(cfg, Restarted(s, ag.listeners), ag, inputs);
  }

  // ----- Snapshots that cannot rewind behind the lowest mark -----

  // Records ascend, and are behind the position
  ghost predicate RecordsOk(p: Poll) {
    Ascending(p.polledChain) && forall k :: 0 <= k < |p.polledChain| ==> p.polledChain[k].number < p.fromBlock
  }

  lemma {:induction false} RewindRecordsOk(p: Poll, headChain: seq<Block>, lowest: int)
    requires RecordsOk(p)
    ensures RecordsOk(AfterRewind(p, headChain)) && AfterRewind(p, headChain).fromBlock <= p.fromBlock
    ensures lowest <= p.fromBlock && (headChain != [] ==> lowest <= headChain[0].number) ==>
              lowest <= AfterRewind(p, headChain).fromBlock
  {
    if headChain != [] {
      FirstInWindowStops(p.polledChain, headChain[0].number, 0);
    }
  }

  lemma {:induction false} FirstInWindowStops(records: seq<Block>, base: int, i: nat)
    requires i <= |records|
    ensures var k := FirstInWindow(records, base, i);
            k < |records| ==> records[k].number >= base
    decreases |records| - i
  {
    if i < |records| && records[i].number < base {
      FirstInWindowStops(records, base, i + 1);
    }
  }

  lemma {:induction false} AdvanceRecordsOk(p: Poll, headChain: seq<Block>, toBlock: int)
    requires RecordsOk(p) && Linked(headChain) && p.fromBlock <= toBlock
    ensures RecordsOk(AfterAdvance(p, headChain, toBlock))
  {
    var added := Between(headChain, p.fromBlock, toBlock);
    BetweenSpec(headChain, p.fromBlock, toBlock);
    assert forall k :: 0 <= k < |added| ==> added[k] in added;
  }

  lemma {:induction false} CycleRecordsOk(cfg: Config, s: Lead, ag: Aggregated, i: Input)
    requires !cfg.lightMode && CanReply(i) && RecordsOk(s.poll) && Linked(i.snapshot)
    ensures RecordsOk(Cycle(cfg, s, ag, i).0.poll)
  {
    RewindRecordsOk(s.poll, i.snapshot, 0);
    if Cycle(cfg, s, ag, i).1.Polled? {
      AdvanceRecordsOk(AfterRewind(s.poll, i.snapshot), i.snapshot, Page(cfg, AfterRewind(s.poll, i.snapshot), i));
    }
  }

  // The snapshot of a cycle is linked, and begins at or in front of the lowest mark
  ghost predicate HighSnapshot(s: Lead, ag: Aggregated, i: Input) {
    Linked(i.snapshot) && (i.snapshot != [] ==> LowestMark(s.hwm, ag.listeners) <= i.snapshot[0].number)
  }

  ghost predicate HighSnapshots(cfg: Config, s: Lead, ag: Aggregated, inputs: seq<Input>)
    requires CanReplyAll(inputs)
  {
    inputs == [] ||
      var front, last := inputs[..|inputs| - 1], inputs[|inputs| - 1];
      HighSnapshots(cfg, s, ag, front) && HighSnapshot(Run(cfg, s, ag, front), ag, last)
  }

  lemma {:induction false} HighRun(cfg: Config, s: Lead, ag: Aggregated, inputs: seq<Input>)
    requires !cfg.lightMode && IsGroup(cfg, s, ag) && CanReplyAll(inputs) && Ahead(s, ag) && RecordsOk(s.poll)
    requires HighSnapshots(cfg, s, ag, inputs)
    ensures var r := Run(cfg, s, ag, inputs);
            IsGroup(cfg, r, ag) && Ahead(r, ag) && RecordsOk(r.poll)
    decreases |inputs|
  {
    if inputs != [] {
      var front, last := inputs[..|inputs| - 1], inputs[|inputs| - 1];
      HighRun(cfg, s, ag, front);
      var r := Run(cfg, s, ag, front);
      RewindRecordsOk(r.poll, last.snapshot, LowestMark(r.hwm, ag.listeners));
      FullCycle(cfg, r, ag, last);
      CycleRecordsOk(cfg, r, ag, last);
    }
  }

  /** In full mode control never bounces, at any head, while the snapshots begin at or in front of the lowest mark. */
  lemma {:induction false} FullNeverBounces(cfg: Config, s: Lead, ag: Aggregated, inputs: seq<Input>, next: Input)
    requires !cfg.lightMode && IsGroup(cfg, s, ag) && CanReplyAll(inputs) && CanReply(next)
    requires HighSnapshots(cfg, Restarted(s, ag.listeners), ag, inputs)
    ensures !Bounces(cfg, Run(cfg, Restarted(s, ag.listeners), ag, inputs), ag, next)
  {
    HighRun(cfg, Restarted(s, ag.listeners), ag, inputs);
  }

  /** The block listener's list begins there when it was trimmed to the monitored length, and ends at the head. */
  lemma {:induction false} TrimmedListIsHigh(v: CanonicalChain.View, monitored: nat, lowest: int)
    requires CanonicalChain.Inv(v) && v.chain != [] && |v.chain| <= monitored
    requires v.chain[|v.chain| - 1].number == v.highestBlock && lowest <= StableHead(v.highestBlock, monitored)
    ensures Linked(v.chain) && lowest <= v.chain[0].number
  {
    LinkedNumbers(v.chain, |v.chain| - 1);
  }

  // ----- Control does bounce -----

  const LISTENER := Listener(1, [Filter(7, None)])

  const GROUP := Aggregated([LISTENER], [7], map[7 := [LISTENER]])

  const OLD_CHAIN := [Block(2, 12, 11), Block(3, 13, 12), Block(4, 14, 13), Block(5, 15, 14)]

  const NEW_CHAIN := [Block(2, 22, 11), Block(3, 23, 22), Block(4, 24, 23), Block(5, 25, 24)]

  const ALWAYS: Enricher := (_, _, _) => true

  const CFG := Config(false, 1, 2)

  // A configuration that the connector accepts: its pages are no larger than its threshold
  const SETTINGS := Settings(false, 1, 2, 2)

  const POLL_OLD := Input(5, OLD_CHAIN, 2, Some([]), ALWAYS)

  const FAIL_NEW := Input(5, NEW_CHAIN, 2, None, ALWAYS)

  const LATER := Input(6, NEW_CHAIN, 2, None, ALWAYS)

  const START := Lead(Poll(2, [], map[]), map[1 := 2], map[], 0, [])

  const POLLED := Lead(Poll(4, OLD_CHAIN[..2], map[]), map[1 := 4], map[], 4, [])

  const REWOUND := Lead(Poll(2, [], map[]), map[1 := 4], map[], 4, [])

  lemma {:induction false} PollsOldChain()
    ensures Cycle(CFG, START, GROUP, POLL_OLD) == (POLLED, Polled)
  {
    OldChainBetween();
    assert HasId(GROUP.listeners, 1) by { assert GROUP.listeners[0].id == 1; }
    assert MoveForwards(map[1 := 2], GROUP.listeners, 4) == map[1 := 4];
    assert Page(CFG, START.poll, POLL_OLD) == 3;
    var logs: seq<Log> := [];
    assert FilterLogs(GROUP, Mark(START.hwm), logs, ALWAYS) == Some([]);
    assert AfterAdvance(START.poll, OLD_CHAIN, 3) == Poll(4, OLD_CHAIN[..2], map[]);
    assert Deliver(CFG, START, GROUP, POLL_OLD, START.poll, 3, logs, []) == POLLED;
    assert Scan(CFG, START, GROUP, POLL_OLD, START.poll).1 == Polled;
  }

  lemma {:induction false} OldChainBetween()
    ensures Between(OLD_CHAIN, 2, 3) == OLD_CHAIN[..2]
  {
    assert OLD_CHAIN[..3][..2] == OLD_CHAIN[..2] && OLD_CHAIN[..2][..1] == OLD_CHAIN[..1];
    assert Between(OLD_CHAIN[..1], 2, 3) == OLD_CHAIN[..1];
    assert Between(OLD_CHAIN[..2], 2, 3) == OLD_CHAIN[..2];
    assert Between(OLD_CHAIN[..3], 2, 3) == OLD_CHAIN[..2];
  }

  lemma {:induction false} FailsAfterRewind()
    ensures Cycle(CFG, POLLED, GROUP, FAIL_NEW) == (REWOUND, Retrying)
  {
    var records := POLLED.poll.polledChain;
    assert Replaced(records[0], NEW_CHAIN);
    assert FirstInWindow(records, 2, 0) == 0 && records[0..] == records;
    assert FirstReplaced(records, NEW_CHAIN, 0) == 0;
  }

  lemma {:induction false} RunToRewound()
    ensures CanReply(POLL_OLD) && CanReply(FAIL_NEW) && Run(CFG, START, GROUP, [POLL_OLD, FAIL_NEW]) == REWOUND
  {
    var inputs := [POLL_OLD, FAIL_NEW];
    assert inputs[..1] == [POLL_OLD] && inputs[..1][..0] == [];
    PollsOldChain();
    assert Run(CFG, START, GROUP, inputs[..1]) == POLLED;
    FailsAfterRewind();
  }

  lemma {:induction false} RewoundBounces()
    ensures Bounces(CFG, REWOUND, GROUP, LATER)
  {
    assert LowestMark(map[1 := 4], GROUP.listeners) == 4;
  }

  lemma {:induction false} GroupIsIndex()
    ensures IsIndex(GROUP, GROUP.listeners)
  {
    var l := GROUP.listeners[0];
    assert l.filters[0] in l.filters && GROUP.listeners[..0] == [];
    assert forall t :: HasTopic(l, t) <==> t == 7;
    assert forall t :: InterestedIn(GROUP.listeners, t) == InterestedIn([], t) + if t == 7 then [l] else [];
  }

  const BEFORE := [Block(0, 10, 9), Block(1, 11, 10)]

  function Commit(h: Hash): Block {
    if h == 22 then Block(2, 22, 11)
    else if h > 22 then Block(h - 20, h, h - 1)
    else if h >= 10 then Block(h - 10, h, h - 1)
    else Block(0, h, h)
  }

  // A node that serves a chain for good
  function Serving(c: seq<Block>): Script {
    Script((t: nat, n: nat) => if n < |c| then Found(c[n]) else Missing)
  }

  // The head does not link to the block in front of it, so that the list is rebuilt from its front on
  lemma {:induction false} RebuiltToHead(v: CanonicalChain.View, c: seq<Block>, k: nat)
    requires IsChain(c) && |c| == 6 && Genuine(Commit, c) && Genuine(Commit, v.chain)
    requires Linked(v.chain) && v.chain != [] && v.chain[0].number == 2 && c[5] !in v.chain
    requires 0 < k <= |v.chain| && k == CanonicalChain.AddAfter(v.chain, c[5]) && !v.chain[k - 1].IsParentOf(c[5])
    ensures CanonicalChain.Reconcile(v, c[5], 1, Serving(c), 0).view.chain == c[2..]
  {
    assert forall n: nat :: n < |c| ==> c[n].number == n && n <= MAX_BLOCK by { AllNumbers(c); }
    CanonicalChain.SeekLinked(v.chain, c[5]);
    CanonicalChain.ReconcileNew(v, c[5], 1, Serving(c), 0);
    CanonicalChain.RebuildOnChain(Commit, CanonicalChain.NoteHead(v, c[5]), Serving(c), 0, c);
  }

  /** Both snapshots of the run below are lists that the block listener builds, monitoring one block: a list of block 2
      is rebuilt to the head, and rebuilt again when all of it is replaced. A rebuild does not trim. */
  lemma {:induction false} SnapshotsAreBuilt(v: CanonicalChain.View)
    requires v.chain == [OLD_CHAIN[0]]
    ensures var v1 := CanonicalChain.Reconcile(v, OLD_CHAIN[3], 1, Serving(BEFORE + OLD_CHAIN), 0).view;
            && v1.chain == OLD_CHAIN
            && CanonicalChain.Reconcile(v1, NEW_CHAIN[3], 1, Serving(BEFORE + NEW_CHAIN), 0).view.chain == NEW_CHAIN
  {
    OldIsBuilt(v);
    NewIsBuilt(CanonicalChain.Reconcile(v, OLD_CHAIN[3], 1, Serving(BEFORE + OLD_CHAIN), 0).view);
  }

  lemma {:induction false} OldIsBuilt(v: CanonicalChain.View)
    requires v.chain == [OLD_CHAIN[0]]
    ensures CanonicalChain.Reconcile(v, OLD_CHAIN[3], 1, Serving(BEFORE + OLD_CHAIN), 0).view.chain == OLD_CHAIN
  {
    var c := BEFORE + OLD_CHAIN;
    assert CanonicalChain.AddAfter(v.chain, c[5]) == 1;
    RebuiltToHead(v, c, 1);
  }

  lemma {:induction false} NewIsBuilt(v: CanonicalChain.View)
    requires v.chain == OLD_CHAIN
    ensures CanonicalChain.Reconcile(v, NEW_CHAIN[3], 1, Serving(BEFORE + NEW_CHAIN), 0).view.chain == NEW_CHAIN
  {
    var c := BEFORE + NEW_CHAIN;
    assert CanonicalChain.AddAfter(v.chain, c[5]) == 3;
    RebuiltToHead(v, c, 3);
  }

  lemma {:induction false} StartIsEstablished()
    ensures IsGroup(CFG, START, GROUP) && START == Restarted(START, GROUP.listeners)
  {
    assert GROUP.listeners[..0] == [] && LowestMark(map[1 := 2], GROUP.listeners) == 2;
  }

  lemma {:induction false} ChainsAreLinked()
    ensures Linked(OLD_CHAIN) && Linked(NEW_CHAIN) && CanReplyAll([POLL_OLD, FAIL_NEW])
  {
  }

  lemma {:induction false} PageSizeIsAccepted()
    ensures Configure(SETTINGS) == Some(SETTINGS) && PageSizeOk(SETTINGS)
    ensures CFG == Config(SETTINGS.lightMode, SETTINGS.checkpointBlockGap, SETTINGS.catchupThreshold)
    ensures forall i :: i in [POLL_OLD, FAIL_NEW, LATER] ==> 1 <= i.pageSize == SETTINGS.catchupPageSize
  {
  }

  /** Blocks 2 and 3 are polled, both are replaced, and the query after the rewind fails. The position is two blocks
      behind the mark then, and with one more block on the chain neither loop polls. The page size is the configured
      one, which the connector accepts. */
  lemma {:induction false} FullModeCanBounce()
    ensures CanReplyAll([POLL_OLD, FAIL_NEW]) && Linked(OLD_CHAIN) && Linked(NEW_CHAIN)
    ensures IsGroup(CFG, START, GROUP) && IsIndex(GROUP, GROUP.listeners) && START == Restarted(START, GROUP.listeners)
    ensures Configure(SETTINGS) == Some(SETTINGS)
    ensures CFG == Config(SETTINGS.lightMode, SETTINGS.checkpointBlockGap, SETTINGS.catchupThreshold)
    ensures forall i :: i in [POLL_OLD, FAIL_NEW, LATER] ==> 1 <= i.pageSize == SETTINGS.catchupPageSize
    ensures Bounces(CFG, Run(CFG, START, GROUP, [POLL_OLD, FAIL_NEW]), GROUP, LATER)
  {
    PageSizeIsAccepted();
    StartIsEstablished();
    ChainsAreLinked();
    GroupIsIndex();
    RunToRewound();
    RewoundBounces();
  }
}

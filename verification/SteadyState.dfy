/**
 One cycle of the client-side steady-state loop of the lead group.
 */
module SteadyState {
  import opened Blocks
  import opened AggregatedListener
  import opened EventListener
  import opened GetLogsPolling

  datatype Config = Config(lightMode: bool, checkpointBlockGap: nat, catchupThreshold: int)

  // hwm is the high water mark per listener, detected the highest checkpoint pushed per listener, sent what was pushed
  datatype Lead = Lead(
    poll: Poll, hwm: map<Id, int>, detected: map<Id, Checkpoint>, headBlock: int, sent: seq<Update>)

  // What a cycle sees: the head, the snapshot of the canonical chain (full mode), the page size, the node's
  // answer (none if the query fails), and which details can be fetched
  datatype Input = Input(chainHead: nat, snapshot: seq<Block>, pageSize: int, reply: Option<seq<Log>>, enrich: Enricher)

  // Reverted, UpToDate and Stopped are the ways out of a loop
  datatype Status = Reverted | Waiting | Retrying | Polled | UpToDate | Stopped

  function Mark(hwm: map<Id, int>): Id -> int {
    id => if id in hwm then hwm[id] else 0
  }

  predicate HasId(listeners: seq<Listener>, id: Id) {
    exists i :: 0 <= i < |listeners| && listeners[i].id == id
  }

  function MoveForwards(hwm: map<Id, int>, listeners: seq<Listener>, mark: int): map<Id, int> {
    map id | id in hwm :: if HasId(listeners, id) then Max(hwm[id], mark) else hwm[id]
  }

  // The position recorded for restarts: never past the stable head, and in light mode never behind the base
  function HwmBlock(cfg: Config, stableHead: int, fromBlock: int, toBlock: int): int {
    var mark := Min(toBlock + 1, stableHead);
    if cfg.lightMode then Max(mark, fromBlock) else mark
  }

  function Page(cfg: Config, p: Poll, i: Input): int {
    var ceiling := ScanCeiling(cfg.lightMode, i.chainHead, StableHead(i.chainHead, cfg.checkpointBlockGap), i.snapshot);
    Min(ceiling, p.fromBlock + i.pageSize - 1)
  }

  // The steady state hands control back to catchup, which only polls up to the stable head
  predicate TooFarBehind(cfg: Config, fromBlock: int, chainHead: int) {
    StableHead(chainHead, cfg.checkpointBlockGap) - fromBlock > cfg.catchupThreshold
  }

  predicate CanReply(i: Input) {
    i.reply.Some? ==> forall k :: 0 <= k < |i.reply.value| ==> i.reply.value[k].topics != []
  }

  function Deliver(
    cfg: Config, s: Lead, ag: Aggregated, i: Input, p: Poll, toBlock: int, logs: seq<Log>, events: seq<Update>): Lead
  {
    var mark := HwmBlock(cfg, StableHead(i.chainHead, cfg.checkpointBlockGap), p.fromBlock, toBlock);
    Lead(if cfg.lightMode then AfterRescan(p, logs, mark) else AfterAdvance(p, i.snapshot, toBlock),
         MoveForwards(s.hwm, ag.listeners, mark),
         DetectAll(s.detected, events),
         Max(s.headBlock, mark),
         s.sent + events)
  }

  // What is left of a reply when the blocks delivered before are dropped, in light mode
  function NewLogs(cfg: Config, p: Poll, i: Input): (logs: seq<Log>)
    requires i.reply.Some?
    ensures forall k :: 0 <= k < |logs| ==> logs[k] in i.reply.value
  {
    if cfg.lightMode then Undelivered(p.delivered, i.reply.value) else i.reply.value
  }

  // The position that the cycle scans from
  function Rewound(cfg: Config, p: Poll, i: Input): Poll {
    if cfg.lightMode then p else AfterRewind(p, i.snapshot)
  }

  function Scan(cfg: Config, s: Lead, ag: Aggregated, i: Input, p: Poll): (Lead, Status)
    requires CanReply(i)
  {
    var toBlock := Page(cfg, p, i);
    if toBlock < p.fromBlock then (s.(poll := p), Waiting)
    else if i.reply.None? then (s.(poll := p), Retrying)
    else
      var logs := NewLogs(cfg, p, i);
      match FilterLogs(ag, Mark(s.hwm), logs, i.enrich)
      case None => (s.(poll := p), Retrying)
      case Some(events) => (Deliver(cfg, s, ag, i, p, toBlock, logs, events), Polled)
  }

  function Cycle(cfg: Config, s: Lead, ag: Aggregated, i: Input): (Lead, Status)
    requires CanReply(i)
  {
    if ag.signatureSet == [] then (s, Waiting)
    else if TooFarBehind(cfg, s.poll.fromBlock, i.chainHead) then (s, Reverted)
    else Scan(cfg, s, ag, i, Rewound(cfg, s.poll, i))
  }

  function Run(cfg: Config, s: Lead, ag: Aggregated, inputs: seq<Input>): Lead
    requires forall k :: 0 <= k < |inputs| ==> CanReply(inputs[k])
  {
    if inputs == [] then s
    else Cycle(cfg, Run(cfg, s, ag, inputs[..|inputs| - 1]), ag, inputs[|inputs| - 1]).0
  }

  // ----- What a cycle moves -----

  /** How far a page reaches: no further than the page size and the head, and in full mode no further than the stable
      head or the snapshot, whichever is higher. */
  lemma {:induction false} PageReaches(cfg: Config, p: Poll, i: Input, b: int)
    ensures b <= Page(cfg, p, i) <==>
              && b < p.fromBlock + i.pageSize && b <= i.chainHead
              && (|| cfg.lightMode || b <= 0 || b + cfg.checkpointBlockGap <= i.chainHead
                  || (i.snapshot != [] && b <= i.snapshot[|i.snapshot| - 1].number))
  {
  }

  // There is a page to poll, the query is answered, and the details can be fetched
  predicate PageComes(cfg: Config, s: Lead, ag: Aggregated, i: Input, p: Poll)
    requires CanReply(i)
  {
    && p.fromBlock <= Page(cfg, p, i) && i.reply.Some?
    && FilterLogs(ag, Mark(s.hwm), NewLogs(cfg, p, i), i.enrich).Some?
  }

  // Each listener of the group, and the position of the group, is at this block unless it was in front of it already.
  // The other listeners stay where they are.
  ghost predicate MovedUpTo(s: Lead, r: Lead, ag: Aggregated, block: int) {
    && r.hwm.Keys == s.hwm.Keys && r.headBlock == Max(s.headBlock, block)
    && forall id :: id in s.hwm ==> r.hwm[id] == if HasId(ag.listeners, id) then Max(s.hwm[id], block) else s.hwm[id]
  }

  /** A page takes the marks, and the position of the group, right behind it, but not past the stable head. In light
      mode they are not taken behind the committed base either, which goes with them, and in full mode the poll position
      is right behind the page. A cycle without a page moves none of them, and pushes nothing. */
  lemma {:induction false} CycleMoves(cfg: Config, s: Lead, ag: Aggregated, i: Input)
    requires CanReply(i)
    ensures var (r, status) := Cycle(cfg, s, ag, i);
            var (p, stable) := (Rewound(cfg, s.poll, i), StableHead(i.chainHead, cfg.checkpointBlockGap));
            var behind := Page(cfg, p, i) + 1;
            && (status.Polled? <==>
                 && ag.signatureSet != [] && !TooFarBehind(cfg, s.poll.fromBlock, i.chainHead)
                 && PageComes(cfg, s, ag, i, p))
            && (!status.Polled? ==> r == s.(poll := r.poll) && (cfg.lightMode ==> r == s))
            && (status.Polled? && !cfg.lightMode ==>
                 MovedUpTo(s, r, ag, Min(behind, stable)) && r.poll.fromBlock == behind)
            && (status.Polled? && cfg.lightMode ==>
                 MovedUpTo(s, r, ag, r.poll.fromBlock) && r.poll.fromBlock == Max(Min(behind, stable), p.fromBlock))
  {
  }

  // ----- What was polled -----

  // A page that was polled: its range, the marks its logs were filtered at, and the logs
  datatype Polling = Polling(fromBlock: int, toBlock: int, hwm: map<Id, int>, logs: seq<Log>)

  // The page of a cycle, if it polled one
  function CyclePollings(cfg: Config, s: Lead, ag: Aggregated, i: Input): seq<Polling>
    requires CanReply(i)
  {
    var p := Rewound(cfg, s.poll, i);
    if Cycle(cfg, s, ag, i).1.Polled? then [Polling(p.fromBlock, Page(cfg, p, i), s.hwm, NewLogs(cfg, p, i))] else []
  }

  function RunPollings(cfg: Config, s: Lead, ag: Aggregated, inputs: seq<Input>): seq<Polling>
    requires forall k :: 0 <= k < |inputs| ==> CanReply(inputs[k])
  {
    if inputs == [] then []
    else
      var front, last := inputs[..|inputs| - 1], inputs[|inputs| - 1];
      RunPollings(cfg, s, ag, front) + CyclePollings(cfg, Run(cfg, s, ag, front), ag, last)
  }

  // A page has the block in its range, and the listener's mark was not past the block then
  predicate PolledFor(pollings: seq<Polling>, id: Id, b: int) {
    exists k ::
      && 0 <= k < |pollings| && pollings[k].fromBlock <= b <= pollings[k].toBlock
      && Mark(pollings[k].hwm)(id) <= b
  }

  // Each block between two marks of a listener was polled, and each log it wants of what was polled was pushed
  ghost predicate NoneMissed(l: Listener, start: int, end: int, pollings: seq<Polling>, sent: seq<Update>) {
    && (forall b :: start <= b < end ==> PolledFor(pollings, l.id, b))
    && (forall k, g ::
         0 <= k < |pollings| && g in pollings[k].logs && Wants(l, Mark(pollings[k].hwm)(l.id), g) ==>
           Update(l.id, g) in sent)
  }

  // ----- The position a loop starts from -----

  // The lowest high water mark of the group, or -1 when the group is empty
  function LowestMark(hwm: map<Id, int>, listeners: seq<Listener>): int {
    if listeners == [] then -1
    else
      var lowest := LowestMark(hwm, listeners[..|listeners| - 1]);
      var mark := Mark(hwm)(listeners[|listeners| - 1].id);
      if lowest < 0 || mark < lowest then mark else lowest
  }

  // The poll position is re-established when the listeners change, or the loop is entered again
  function Restarted(s: Lead, listeners: seq<Listener>): Lead {
    s.(poll := Poll(LowestMark(s.hwm, listeners), [], map[]))
  }

  ghost predicate HaveMarks(hwm: map<Id, int>, listeners: seq<Listener>) {
    forall i :: 0 <= i < |listeners| ==> listeners[i].id in hwm && hwm[listeners[i].id] >= 0
  }

  ghost predicate IsLowest(hwm: map<Id, int>, listeners: seq<Listener>, lowest: int)
    requires HaveMarks(hwm, listeners)
  {
    && (exists i :: 0 <= i < |listeners| && hwm[listeners[i].id] == lowest)
    && (forall i :: 0 <= i < |listeners| ==> lowest <= hwm[listeners[i].id])
  }

  lemma {:induction false} LowestMarkIsLowest(hwm: map<Id, int>, listeners: seq<Listener>)
    requires HaveMarks(hwm, listeners) && listeners != []
    ensures IsLowest(hwm, listeners, LowestMark(hwm, listeners))
  {
    var front, last := listeners[..|listeners| - 1], |listeners| - 1;
    assert hwm[listeners[last].id] == Mark(hwm)(listeners[last].id);
    if front != [] {
      LowestMarkIsLowest(hwm, front);
      var i :| 0 <= i < |front| && hwm[front[i].id] == LowestMark(hwm, front);
      assert listeners[i] == front[i];
      assert forall j :: 0 <= j < last ==> listeners[j] == front[j];
    }
  }

  /** Moving the marks of a group moves its lowest mark just as far. */
  lemma {:induction false} LowestMarkMoves(hwm: map<Id, int>, listeners: seq<Listener>, mark: int)
    requires HaveMarks(hwm, listeners) && listeners != []
    ensures var moved := MoveForwards(hwm, listeners, mark);
            && HaveMarks(moved, listeners)
            && LowestMark(moved, listeners) == Max(LowestMark(hwm, listeners), mark)
            && forall i :: 0 <= i < |listeners| ==> moved[listeners[i].id] == Max(hwm[listeners[i].id], mark)
  {
    var moved := MoveForwards(hwm, listeners, mark);
    forall i | 0 <= i < |listeners|
      ensures HasId(listeners, listeners[i].id)
    {
    }
    LowestMarkIsLowest(hwm, listeners);
    LowestMarkIsLowest(moved, listeners);
    var i :| 0 <= i < |listeners| && hwm[listeners[i].id] == LowestMark(hwm, listeners);
    assert LowestMark(moved, listeners) <= moved[listeners[i].id];
  }

  /** What a run pushes does not depend on what was pushed before it. */
  lemma {:induction false} RunPushes(cfg: Config, s: Lead, ag: Aggregated, inputs: seq<Input>)
    requires forall k :: 0 <= k < |inputs| ==> CanReply(inputs[k])
    ensures var r0 := Run(cfg, s.(sent := []), ag, inputs);
            Run(cfg, s, ag, inputs) == r0.(sent := s.sent + r0.sent)
  {
    if inputs == [] {
      assert s.sent + [] == s.sent;
    } else {
      RunPushes(cfg, s, ag, inputs[..|inputs| - 1]);
      CyclePushes(cfg, Run(cfg, s.(sent := []), ag, inputs[..|inputs| - 1]), ag, inputs[|inputs| - 1], s.sent);
    }
  }

  lemma {:induction false} CyclePushes(cfg: Config, s: Lead, ag: Aggregated, i: Input, before: seq<Update>)
    requires CanReply(i)
    ensures var (r, status) := Cycle(cfg, s, ag, i);
            Cycle(cfg, s.(sent := before + s.sent), ag, i) == (r.(sent := before + r.sent), status)
  {
    var p := Rewound(cfg, s.poll, i);
    var toBlock := Page(cfg, p, i);
    if Cycle(cfg, s, ag, i).1.Polled? {
      var logs := NewLogs(cfg, p, i);
      DeliverPushes(cfg, s, ag, i, p, toBlock, logs, FilterLogs(ag, Mark(s.hwm), logs, i.enrich).value, before);
    }
  }

  lemma {:induction false} DeliverPushes(
    cfg: Config, s: Lead, ag: Aggregated, i: Input, p: Poll, toBlock: int, logs: seq<Log>, events: seq<Update>,
    before: seq<Update>)
    ensures var r := Deliver(cfg, s, ag, i, p, toBlock, logs, events);
            Deliver(cfg, s.(sent := before + s.sent), ag, i, p, toBlock, logs, events) == r.(sent := before + r.sent)
  {
    assert before + (s.sent + events) == before + s.sent + events;
  }

  // From one state to a later one, the checkpoint of each listener is the highest of its events that were pushed
  ghost predicate DetectsPushed(s: Lead, r: Lead) {
    && s.sent <= r.sent
    && forall id :: IsHighest(Detected(s.detected, id), Detected(r.detected, id),
                              CheckpointsFor(r.sent[|s.sent|..], id))
  }

  lemma {:induction false} DetectsNothing(s: Lead, r: Lead)
    requires r.sent == s.sent && r.detected == s.detected
    ensures DetectsPushed(s, r)
  {
  }

  lemma {:induction false} DetectsEvents(s: Lead, r: Lead, events: seq<Update>)
    requires r.sent == s.sent + events && r.detected == DetectAll(s.detected, events)
    ensures DetectsPushed(s, r)
  {
    assert r.sent[|s.sent|..] == events;
    forall id
      ensures IsHighest(Detected(s.detected, id), Detected(r.detected, id), CheckpointsFor(events, id))
    {
      DetectAllIsHighest(s.detected, events, id);
    }
  }

  lemma {:induction false} DetectsCompose(s: Lead, s1: Lead, r: Lead)
    requires DetectsPushed(s, s1) && DetectsPushed(s1, r)
    ensures DetectsPushed(s, r)
  {
    var a, b := s1.sent[|s.sent|..], r.sent[|s1.sent|..];
    assert r.sent[|s.sent|..] == a + b;
    forall id
      ensures IsHighest(Detected(s.detected, id), Detected(r.detected, id), CheckpointsFor(a + b, id))
    {
      assert CheckpointsFor(a + b, id) == CheckpointsFor(a, id) + CheckpointsFor(b, id);
      HighestCompose(Detected(s.detected, id), Detected(s1.detected, id), Detected(r.detected, id),
                     CheckpointsFor(a, id), CheckpointsFor(b, id));
    }
  }

  /** Over any run, the detected checkpoint of each listener ends at the highest of its events that the run pushed, and
      of where it was. */
  lemma {:induction false} RunDetects(cfg: Config, s: Lead, ag: Aggregated, inputs: seq<Input>)
    requires forall k :: 0 <= k < |inputs| ==> CanReply(inputs[k])
    ensures DetectsPushed(s, Run(cfg, s, ag, inputs))
  {
    if inputs == [] {
      DetectsNothing(s, s);
    } else {
      var front, last := inputs[..|inputs| - 1], inputs[|inputs| - 1];
      RunDetects(cfg, s, ag, front);
      CycleDetects(cfg, Run(cfg, s, ag, front), ag, last);
      DetectsCompose(s, Run(cfg, s, ag, front), Run(cfg, s, ag, inputs));
    }
  }

  lemma {:induction false} CycleDetects(cfg: Config, s: Lead, ag: Aggregated, i: Input)
    requires CanReply(i)
    ensures DetectsPushed(s, Cycle(cfg, s, ag, i).0)
  {
    var (r, status) := Cycle(cfg, s, ag, i);
    if status.Polled? {
      var logs := NewLogs(cfg, Rewound(cfg, s.poll, i), i);
      DetectsEvents(s, r, FilterLogs(ag, Mark(s.hwm), logs, i.enrich).value);
    } else {
      DetectsNothing(s, r);
    }
  }

  lemma {:induction false} HasIdUpTo(listeners: seq<Listener>, i: nat)
    requires i < |listeners|
    ensures forall id :: HasId(listeners[..i + 1], id) <==> id == listeners[i].id || HasId(listeners[..i], id)
  {
    var more := listeners[..i + 1];
    assert more[i] == listeners[i];
    forall id | HasId(listeners[..i], id)
      ensures HasId(more, id)
    {
      var j :| 0 <= j < i && listeners[..i][j].id == id;
      assert more[j].id == id;
    }
    forall id | HasId(more, id) && id != listeners[i].id
      ensures HasId(listeners[..i], id)
    {
      var j :| 0 <= j < i + 1 && more[j].id == id;
      assert listeners[..i][j].id == id;
    }
  }

  // ----- The loop body -----

  class LeadGroup {
    const cfg: Config
    const poll: GetLogsPollState
    var hwm: map<Id, int>
    var detected: map<Id, Checkpoint>
    var headBlock: int
    var sent: seq<Update>

    ghost function State(): Lead
      reads this, poll
    {
      Lead(poll.State(), hwm, detected, headBlock, sent)
    }

    constructor (cfg: Config, hwm: map<Id, int>, headBlock: int)
      ensures fresh(poll) && this.cfg == cfg && State() == Lead(Poll(-1, [], map[]), hwm, map[], headBlock, [])
    {
      this.cfg := cfg;
      this.hwm, this.headBlock, detected, sent := hwm, headBlock, map[], [];
      var p := new GetLogsPollState();
      poll := p;
    }

    method PollCycle(ag: Aggregated, i: Input) returns (status: Status)
      requires CanReply(i)
      modifies this, poll
      ensures (State(), status) == Cycle(cfg, old(State()), ag, i)
    {
      if |ag.signatureSet| == 0 {
        return Waiting;
      }
      var stableHead := i.chainHead - cfg.checkpointBlockGap;
      if stableHead < 0 {
        stableHead := 0;
      }
      if stableHead - poll.fromBlock > cfg.catchupThreshold {
        return Reverted;
      }
      if !cfg.lightMode {
        poll.CheckReorgRewind(i.snapshot);
      }
      status := ScanPage(ag, i, stableHead);
    }

    method ScanPage(ag: Aggregated, i: Input, stableHead: int) returns (status: Status)
      requires CanReply(i) && stableHead == StableHead(i.chainHead, cfg.checkpointBlockGap)
      modifies this, poll
      ensures (State(), status) == Scan(cfg, old(State()), ag, i, old(State()).poll)
    {
      var scanFrom := poll.fromBlock;
      var toBlock := ScanCeiling(cfg.lightMode, i.chainHead, stableHead, i.snapshot);
      if toBlock > scanFrom + i.pageSize - 1 {
        toBlock := scanFrom + i.pageSize - 1;
      }
      if toBlock < scanFrom {
        return Waiting;
      }
      if i.reply.None? {
        return Retrying;
      }
      var logs := i.reply.value;
      if cfg.lightMode {
        logs := poll.FilterDelivered(logs);
      }
      var events := FilterEnrich(ag, Mark(hwm), logs, i.enrich);
      if events.None? {
        return Retrying;
      }
      DeliverPage(ag, i, stableHead, toBlock, logs, events.value);
      status := Polled;
    }

    method DeliverPage(ag: Aggregated, i: Input, stableHead: int, toBlock: int, logs: seq<Log>, events: seq<Update>)
      requires stableHead == StableHead(i.chainHead, cfg.checkpointBlockGap)
      modifies this, poll
      ensures State() == Deliver(cfg, old(State()), ag, i, old(State()).poll, toBlock, logs, events)
    {
      var hwmBlock := toBlock + 1;
      if stableHead < hwmBlock {
        hwmBlock := stableHead;
      }
      if cfg.lightMode && hwmBlock < poll.fromBlock {
        hwmBlock := poll.fromBlock;
      }
      DispatchSetHWM(ag, events, hwmBlock);
      StoreHeadBlockForward(hwmBlock);
      if cfg.lightMode {
        poll.AdvanceRescan(logs, hwmBlock);
      } else {
        poll.Advance(i.snapshot, toBlock);
      }
    }

    method DispatchSetHWM(ag: Aggregated, events: seq<Update>, mark: int)
      modifies this`hwm, this`detected, this`sent
      ensures sent == old(sent) + events && detected == DetectAll(old(detected), events)
      ensures hwm == MoveForwards(old(hwm), ag.listeners, mark)
    {
      MarkDetectedAndDispatch(events);
      var i := 0;
      while i < |ag.listeners|
        invariant i <= |ag.listeners|
        invariant hwm == MoveForwards(old(hwm), ag.listeners[..i], mark)
        modifies this`hwm
      {
        var id := ag.listeners[i].id;
        if id in hwm && hwm[id] < mark {
          hwm := hwm[id := mark];
        }
        HasIdUpTo(ag.listeners, i);
        i := i + 1;
      }
      assert ag.listeners[..i] == ag.listeners;
    }

    // Each event is marked as detected, and only then pushed
    method MarkDetectedAndDispatch(events: seq<Update>)
      modifies this`detected, this`sent
      ensures detected == DetectAll(old(detected), events) && sent == old(sent) + events
    {
      var i := 0;
      while i < |events|
        invariant i <= |events| && sent == old(sent) + events[..i] && detected == DetectAll(old(detected), events[..i])
      {
        assert events[..i + 1][..i] == events[..i];
        var id, cp := events[i].listener, CheckpointOf(events[i].log);
        if id !in detected || detected[id].LessThan(cp) {
          detected := detected[id := cp];
        }
        assert detected == DetectAll(old(detected), events[..i + 1]);
        sent := sent + [events[i]];
        i := i + 1;
      }
      assert events[..i] == events;
    }

    method StoreHeadBlockForward(newHeadBlock: int)
      modifies this`headBlock
      ensures headBlock == Max(old(headBlock), newHeadBlock)
    {
      if newHeadBlock > headBlock {
        headBlock := newHeadBlock;
      }
    }

    method ResetPoll(ag: Aggregated)
      modifies poll
      ensures State() == Restarted(old(State()), ag.listeners)
    {
      var fromBlock := LowestOf(ag.listeners);
      poll.Reset(fromBlock);
    }

    method LowestOf(listeners: seq<Listener>) returns (fromBlock: int)
      ensures fromBlock == LowestMark(hwm, listeners)
    {
      fromBlock := -1;
      var i := 0;
      while i < |listeners|
        invariant i <= |listeners| && fromBlock == LowestMark(hwm, listeners[..i])
      {
        assert listeners[..i + 1][..i] == listeners[..i];
        var lHWM := Mark(hwm)(listeners[i].id);
        if fromBlock < 0 || lHWM < fromBlock {
          fromBlock := lHWM;
        }
        i := i + 1;
      }
      assert listeners[..i] == listeners;
    }
  }
}

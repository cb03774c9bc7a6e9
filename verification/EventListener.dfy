/**
 The scan position of one listener.
 */
module EventListener {
  import opened Blocks
  import opened AggregatedListener

  datatype Checkpoint = Checkpoint(block: int, transactionIndex: int, logIndex: int) {
    predicate LessThan(b: Checkpoint) {
      || block < b.block
      || (block == b.block
          && (transactionIndex < b.transactionIndex
            || (transactionIndex == b.transactionIndex && logIndex < b.logIndex)))
    }
  }

  /** Checkpoints are in a total order: by block, then by transaction, then by log. */
  lemma {:induction false} CheckpointsAreOrdered(a: Checkpoint, b: Checkpoint, c: Checkpoint)
    ensures a.LessThan(b) || b.LessThan(a) || a == b
    ensures a.LessThan(b) ==> !b.LessThan(a) && a != b
    ensures a.LessThan(b) && b.LessThan(c) ==> a.LessThan(c)
    ensures a.block < b.block ==> a.LessThan(b)
    ensures a.block == b.block && a.transactionIndex < b.transactionIndex ==> a.LessThan(b)
    ensures a.block == b.block && a.transactionIndex == b.transactionIndex && a.logIndex < b.logIndex ==> a.LessThan(b)
  {
  }

  function CheckpointOf(log: Log): Checkpoint {
    Checkpoint(log.blockNumber, log.transactionIndex, log.logIndex)
  }

  // The highest checkpoint detected so far only moves forwards
  function Marked(last: Option<Checkpoint>, cp: Checkpoint): Option<Checkpoint> {
    if last.None? || last.value.LessThan(cp) then Some(cp) else last
  }

  function MarkAll(last: Option<Checkpoint>, events: seq<Update>): Option<Checkpoint> {
    if events == [] then last
    else Marked(MarkAll(last, events[..|events| - 1]), CheckpointOf(events[|events| - 1].log))
  }

  predicate AtOrAbove(last: Option<Checkpoint>, cp: Checkpoint) {
    last.Some? && !last.value.LessThan(cp)
  }

  // The checkpoints of events, and of those of one listener
  function CheckpointsOf(events: seq<Update>): set<Checkpoint> {
    set u | u in events :: CheckpointOf(u.log)
  }

  function CheckpointsFor(events: seq<Update>, id: Id): set<Checkpoint> {
    set u | u in events && u.listener == id :: CheckpointOf(u.log)
  }

  // The later mark is the highest of the earlier one and the checkpoints: at or above each, and itself one of them
  ghost predicate IsHighest(last: Option<Checkpoint>, later: Option<Checkpoint>, checkpoints: set<Checkpoint>) {
    && (forall cp :: cp in checkpoints ==> AtOrAbove(later, cp))
    && (forall cp: Checkpoint :: AtOrAbove(last, cp) ==> AtOrAbove(later, cp))
    && (later == last || (later.Some? && later.value in checkpoints))
  }

  /** Whatever the order events are detected in, the mark ends at the highest of them and of where it was. */
  lemma {:induction false} MarkAllIsHighest(last: Option<Checkpoint>, events: seq<Update>)
    ensures IsHighest(last, MarkAll(last, events), CheckpointsOf(events))
  {
    if events != [] {
      var front, u := events[..|events| - 1], events[|events| - 1];
      MarkAllIsHighest(last, front);
      assert events == front + [u];
      assert CheckpointsOf(events) == CheckpointsOf(front) + {CheckpointOf(u.log)};
      HighestMore(last, MarkAll(last, front), CheckpointsOf(front), CheckpointOf(u.log));
    }
  }

  lemma {:induction false} HighestMore(
    last: Option<Checkpoint>, later: Option<Checkpoint>, checkpoints: set<Checkpoint>, cp: Checkpoint)
    requires IsHighest(last, later, checkpoints)
    ensures IsHighest(last, Marked(later, cp), checkpoints + {cp})
  {
  }

  lemma {:induction false} HighestCompose(
    a: Option<Checkpoint>, b: Option<Checkpoint>, c: Option<Checkpoint>, s: set<Checkpoint>, s': set<Checkpoint>)
    requires IsHighest(a, b, s) && IsHighest(b, c, s')
    ensures IsHighest(a, c, s + s')
  {
  }

  // ----- Many listeners -----

  function Detected(detected: map<Id, Checkpoint>, id: Id): Option<Checkpoint> {
    if id in detected then Some(detected[id]) else None
  }

  // Each event is detected for its listener
  function DetectAll(detected: map<Id, Checkpoint>, events: seq<Update>): map<Id, Checkpoint> {
    if events == [] then detected
    else
      var u := events[|events| - 1];
      var before := DetectAll(detected, events[..|events| - 1]);
      before[u.listener := Marked(Detected(before, u.listener), CheckpointOf(u.log)).value]
  }

  /** Each listener ends at the highest of its own events and of where it was. */
  lemma {:induction false} DetectAllIsHighest(detected: map<Id, Checkpoint>, events: seq<Update>, id: Id)
    ensures IsHighest(Detected(detected, id), Detected(DetectAll(detected, events), id), CheckpointsFor(events, id))
  {
    if events != [] {
      var front, u := events[..|events| - 1], events[|events| - 1];
      DetectAllIsHighest(detected, front, id);
      assert events == front + [u];
      if u.listener == id {
        assert CheckpointsFor(events, id) == CheckpointsFor(front, id) + {CheckpointOf(u.log)};
        HighestMore(Detected(detected, id), Detected(DetectAll(detected, front), id), CheckpointsFor(front, id),
                    CheckpointOf(u.log));
      } else {
        assert CheckpointsFor(events, id) == CheckpointsFor(front, id);
      }
    }
  }

  // The mark of one listener, among the events of many
  function MarkFor(last: Option<Checkpoint>, events: seq<Update>, id: Id): Option<Checkpoint> {
    if events == [] then last
    else
      var u := events[|events| - 1];
      var before := MarkFor(last, events[..|events| - 1], id);
      if u.listener == id then Marked(before, CheckpointOf(u.log)) else before
  }

  lemma {:induction false} MarkForFirst(last: Option<Checkpoint>, u: Update, events: seq<Update>, id: Id)
    ensures MarkFor(last, [u] + events, id) == MarkFor(MarkFor(last, [u], id), events, id)
  {
    if events == [] {
      assert [u] + events == [u];
    } else {
      MarkForFirst(last, u, events[..|events| - 1], id);
      assert ([u] + events)[..|events|] == [u] + events[..|events| - 1];
    }
  }

  lemma {:induction false} MarkForOne(last: Option<Checkpoint>, u: Update, id: Id)
    ensures MarkFor(last, [u], id) == if u.listener == id then Marked(last, CheckpointOf(u.log)) else last
  {
    assert [u][..0] == [];
  }

  lemma {:induction false} DetectAllFor(detected: map<Id, Checkpoint>, events: seq<Update>, id: Id)
    ensures Detected(DetectAll(detected, events), id) == MarkFor(Detected(detected, id), events, id)
  {
    if events != [] {
      DetectAllFor(detected, events[..|events| - 1], id);
    }
  }

  lemma {:induction false} MarkAllFor(last: Option<Checkpoint>, events: seq<Update>, id: Id)
    requires forall u :: u in events ==> u.listener == id
    ensures MarkAll(last, events) == MarkFor(last, events, id)
  {
    if events != [] {
      assert forall u :: u in events[..|events| - 1] ==> u in events;
      MarkAllFor(last, events[..|events| - 1], id);
    }
  }

  predicate ReadyForLead(headBlock: int, hwm: int, catchupThreshold: int) {
    headBlock >= 0 && headBlock - hwm < catchupThreshold
  }

  class StreamListener {
    const config: Listener
    var hwmBlock: int
    var lastDetected: Option<Checkpoint>
    var removed: bool
    var catchup: bool

    constructor (config: Listener, fromBlock: int)
      ensures this.config == config && hwmBlock == fromBlock && lastDetected == None && !removed && catchup
    {
      this.config := config;
      hwmBlock, lastDetected, removed, catchup := fromBlock, None, false, true;
    }

    method MarkDetected(cp: Checkpoint)
      modifies this`lastDetected
      ensures lastDetected == Marked(old(lastDetected), cp)
      ensures AtOrAbove(lastDetected, cp)
      ensures forall other: Checkpoint :: AtOrAbove(old(lastDetected), other) ==> AtOrAbove(lastDetected, other)
    {
      if lastDetected.None? || lastDetected.value.LessThan(cp) {
        lastDetected := Some(cp);
      }
    }

    method MoveHWMForwards(hwm: int)
      modifies this`hwmBlock
      ensures hwmBlock == Max(old(hwmBlock), hwm)
    {
      if hwm > hwmBlock {
        hwmBlock := hwm;
      }
    }

    // The scan position is a checkpoint in front of every event of the block it is at
    method GetHWM() returns (scanned: Checkpoint, detected: Option<Checkpoint>)
      ensures detected == lastDetected && scanned == Checkpoint(hwmBlock, -1, -1)
      ensures forall log: Log :: CheckpointOf(log).LessThan(scanned) <==> log.blockNumber < hwmBlock
    {
      scanned, detected := Checkpoint(hwmBlock, -1, -1), lastDetected;
    }

    method CheckReadyForLeadPackOrRemoved(headBlock: int, catchupThreshold: int) returns (ready: bool, gone: bool)
      ensures ready == ReadyForLead(headBlock, hwmBlock, catchupThreshold) && gone == removed
    {
      var blockGap := headBlock - hwmBlock;
      ready, gone := headBlock >= 0 && blockGap < catchupThreshold, removed;
    }
  }
}

/**
 Light mode: there is no canonical chain to compare with, so the whole unstable window is scanned again on
 every sweep, and what was delivered is told apart by block hash.
 */
module LightMode {
  import opened Blocks
  import opened AggregatedListener
  import opened GetLogsPolling
  import opened SteadyState
  import EventStream

  // The content of a block is fixed by its hash, and a log by its place in its block. final is the chain below the
  // stable head, once and for all.
  datatype World = World(number: Hash -> nat, logs: Hash -> set<Log>, final: nat -> Hash)

  ghost predicate Sound(w: World) {
    && (forall h: Hash, g: Log :: g in w.logs(h) ==> g.blockHash == h && g.blockNumber == w.number(h))
    && (forall h: Hash, g: Log, g': Log :: g in w.logs(h) && g' in w.logs(h) && SameEvent(g, g') ==> g == g')
    && (forall n: nat :: w.number(w.final(n)) == n)
  }

  // What tells the events of a listener apart
  predicate SameEvent(g: Log, g': Log) {
    g.blockHash == g'.blockHash && g.transactionIndex == g'.transactionIndex && g.logIndex == g'.logIndex
  }

  // The chain of the node that answers a query, and the height it has got to
  datatype NodeView = NodeView(hashAt: nat -> Hash, top: nat)

  // The node returns what passes the query in its own blocks. It may silently stop at its own height.
  ghost predicate Answers(w: World, v: NodeView, q: Query, logs: seq<Log>) {
    && (forall n: nat, g: Log :: q.fromBlock <= n <= v.top && g in w.logs(v.hashAt(n)) && Passes(q, g) ==> g in logs)
    && (forall k :: 0 <= k < |logs| ==>
      Passes(q, logs[k]) && logs[k].blockNumber <= v.top && logs[k] in w.logs(v.hashAt(logs[k].blockNumber)))
    && (forall j, k :: 0 <= j < k < |logs| ==> logs[j] != logs[k])
  }

  // The node is at most the gap behind the observed head, and blocks deeper than the gap are final
  ghost predicate Environment(w: World, cfg: Config, ag: Aggregated, s: Lead, i: Input, v: NodeView) {
    && i.chainHead <= v.top + cfg.checkpointBlockGap
    && (forall n: nat :: w.number(v.hashAt(n)) == n)
    && (forall n: nat :: n < StableHead(i.chainHead, cfg.checkpointBlockGap) ==> v.hashAt(n) == w.final(n))
    && (i.reply.Some? ==> Answers(w, v, RangeQuery(ag, s.poll.fromBlock, Page(cfg, s.poll, i)), i.reply.value))
  }

  // The listener has been sent each log it wants of a block, unless the block is behind its start
  ghost predicate DeliveredTo(w: World, l: Listener, start: int, h: Hash, sent: seq<Update>) {
    forall g :: g in w.logs(h) && Wants(l, start, g) ==> Update(l.id, g) in sent
  }

  ghost predicate Delivered(w: World, ag: Aggregated, starts: map<Id, int>, h: Hash, sent: seq<Update>)
    requires forall k :: 0 <= k < |ag.listeners| ==> ag.listeners[k].id in starts
  {
    forall k :: 0 <= k < |ag.listeners| ==> DeliveredTo(w, ag.listeners[k], starts[ag.listeners[k].id], h, sent)
  }

  // The listeners of the group, each with the high water mark it has when the poll position is reset
  ghost predicate Group(ag: Aggregated, starts: map<Id, int>, base: int) {
    && IsIndex(ag, ag.listeners) && DistinctIds(ag.listeners)
    && forall k :: 0 <= k < |ag.listeners| ==> ag.listeners[k].id in starts && base <= starts[ag.listeners[k].id]
  }

  ghost predicate Inv(w: World, ag: Aggregated, starts: map<Id, int>, base: int, s: Lead)
    requires Group(ag, starts, base)
  {
    && base <= s.poll.fromBlock
    // each mark is the start of the listener, or the committed base when that has passed it
    && s.hwm.Keys == starts.Keys
    && (forall k :: 0 <= k < |ag.listeners| ==>
         var id := ag.listeners[k].id;
         s.hwm[id] == Max(starts[id], s.poll.fromBlock))
    // nothing is lost below the committed base
    && (forall n: nat :: base <= n < s.poll.fromBlock ==> Delivered(w, ag, starts, w.final(n), s.sent))
    // a recorded block was delivered
    && (forall h :: h in s.poll.delivered ==> s.poll.delivered[h] == w.number(h) && Delivered(w, ag, starts, h, s.sent))
    // what was sent of the window is recorded
    && (forall u :: u in s.sent && u.log.blockNumber >= s.poll.fromBlock ==> u.log.blockHash in s.poll.delivered)
    && (forall u :: u in s.sent ==> u.log in w.logs(u.log.blockHash))
    && Once(s.sent)
  }

  ghost predicate Once(sent: seq<Update>) {
    forall u :: multiset(sent)[u] <= 1
  }

  lemma {:induction false} InvAtReset(w: World, ag: Aggregated, starts: map<Id, int>, base: int, s: Lead)
    requires Group(ag, starts, base)
    requires s.poll == Poll(base, [], map[]) && s.hwm == starts && s.sent == []
    ensures Inv(w, ag, starts, base, s)
  {
  }

  lemma {:induction false} UndeliveredMember(delivered: map<Hash, nat>, logs: seq<Log>, g: Log)
    ensures var r := Undelivered(delivered, logs);
            && (g in r <==> g in logs && g.blockHash !in delivered)
            && multiset(r)[g] <= multiset(logs)[g]
  {
    if logs != [] {
      var front := logs[..|logs| - 1];
      UndeliveredMember(delivered, front, g);
      assert logs == front + [logs[|logs| - 1]];
    }
  }

  lemma {:induction false} RecordMember(delivered: map<Hash, nat>, logs: seq<Log>)
    ensures var r := Record(delivered, logs);
            && (forall h :: h in r <==> h in delivered || exists k :: 0 <= k < |logs| && logs[k].blockHash == h)
            && (forall h :: h in r ==>
                 || (h in delivered && r[h] == delivered[h])
                 || exists k :: 0 <= k < |logs| && logs[k].blockHash == h && r[h] == logs[k].blockNumber)
  {
    if logs != [] {
      var front := logs[..|logs| - 1];
      RecordMember(delivered, front);
      assert forall k :: 0 <= k < |front| ==> front[k] == logs[k];
    }
  }

  // All that is known of a block's number agrees
  ghost predicate Numbered(number: Hash -> nat, delivered: map<Hash, nat>, logs: seq<Log>) {
    && (forall h :: h in delivered ==> delivered[h] == number(h))
    && (forall k :: 0 <= k < |logs| ==> logs[k].blockNumber == number(logs[k].blockHash))
  }

  /** What is recorded after a page: the blocks recorded before, and those of the page, that are not behind the base. */
  lemma {:induction false} RescanRecordsExactly(number: Hash -> nat, p: Poll, newLogs: seq<Log>, newBase: int)
    requires Numbered(number, p.delivered, newLogs)
    ensures var q := AfterRescan(p, newLogs, newBase);
            && q.fromBlock == newBase
            && (forall h :: h in q.delivered <==>
                 && number(h) >= newBase
                 && (h in p.delivered || exists k :: 0 <= k < |newLogs| && newLogs[k].blockHash == h))
            && (forall h :: h in q.delivered ==> q.delivered[h] == number(h))
  {
    RecordMember(p.delivered, newLogs);
  }

  // A page that was answered, what is left of it after the delivered blocks are dropped, and the events of that
  ghost predicate Paged(
    w: World, ag: Aggregated, starts: map<Id, int>, base: int, s: Lead, v: NodeView, toBlock: int, reply: seq<Log>,
    logs: seq<Log>, events: seq<Update>)
    requires Group(ag, starts, base)
  {
    && Sound(w) && Inv(w, ag, starts, base, s)
    && (forall n: nat :: w.number(v.hashAt(n)) == n)
    && Answers(w, v, RangeQuery(ag, s.poll.fromBlock, toBlock), reply)
    && logs == Undelivered(s.poll.delivered, reply)
    && events == BruteForce(ag.listeners, Mark(s.hwm), logs)
  }

  // Every block of the page has been delivered, now or on an earlier sweep
  lemma {:induction false} PageDelivers(
    w: World, ag: Aggregated, starts: map<Id, int>, base: int, s: Lead, v: NodeView, toBlock: int, reply: seq<Log>,
    logs: seq<Log>, events: seq<Update>, n: nat)
    requires Group(ag, starts, base) && Paged(w, ag, starts, base, s, v, toBlock, reply, logs, events)
    requires s.poll.fromBlock <= n <= toBlock && n <= v.top
    ensures Delivered(w, ag, starts, v.hashAt(n), s.sent + events)
  {
    var h := v.hashAt(n);
    forall k, g | 0 <= k < |ag.listeners| && g in w.logs(h) && Wants(ag.listeners[k], starts[ag.listeners[k].id], g)
      ensures Update(ag.listeners[k].id, g) in s.sent + events
    {
      var l := ag.listeners[k];
      if h in s.poll.delivered {
        assert DeliveredTo(w, l, starts[l.id], h, s.sent);
      } else {
        assert g.blockNumber == n;
        QueryExcludesNone(ag, ag.listeners, s.poll.fromBlock, toBlock, starts[l.id], k, g);
        UndeliveredMember(s.poll.delivered, reply, g);
        assert Wants(l, Mark(s.hwm)(l.id), g);
        BruteForceMember(ag.listeners, Mark(s.hwm), logs, Update(l.id, g));
      }
    }
  }

  lemma {:induction false} MoreDelivered(
    w: World, ag: Aggregated, starts: map<Id, int>, h: Hash, sent: seq<Update>, events: seq<Update>)
    requires forall k :: 0 <= k < |ag.listeners| ==> ag.listeners[k].id in starts
    requires Delivered(w, ag, starts, h, sent)
    ensures Delivered(w, ag, starts, h, sent + events)
  {
    forall k | 0 <= k < |ag.listeners|
      ensures DeliveredTo(w, ag.listeners[k], starts[ag.listeners[k].id], h, sent + events)
    {
      assert DeliveredTo(w, ag.listeners[k], starts[ag.listeners[k].id], h, sent);
    }
  }

  lemma {:induction false} EventsOfPage(
    w: World, ag: Aggregated, starts: map<Id, int>, base: int, s: Lead, v: NodeView, toBlock: int, reply: seq<Log>,
    logs: seq<Log>, events: seq<Update>, u: Update)
    requires Group(ag, starts, base) && Paged(w, ag, starts, base, s, v, toBlock, reply, logs, events)
    requires u in events
    ensures u.log in logs && u.log in reply && u.log.blockHash !in s.poll.delivered
    ensures u.log in w.logs(u.log.blockHash) && s.poll.fromBlock <= u.log.blockNumber
    ensures multiset(events)[u] <= 1
    ensures u !in s.sent
  {
    BruteForceMember(ag.listeners, Mark(s.hwm), logs, u);
    UndeliveredMember(s.poll.delivered, reply, u.log);
    var k :| 0 <= k < |ag.listeners| && ag.listeners[k].id == u.listener;
    ExactlyOnce(ag.listeners, Mark(s.hwm), logs, k, u.log);
    NoDuplicates(reply, u.log);
    var j :| 0 <= j < |reply| && reply[j] == u.log;
    assert u.log in w.logs(v.hashAt(u.log.blockNumber));
  }

  lemma {:induction false} NoDuplicates(logs: seq<Log>, g: Log)
    requires forall j, k :: 0 <= j < k < |logs| ==> logs[j] != logs[k]
    ensures multiset(logs)[g] <= 1
  {
    if logs != [] {
      var front := logs[..|logs| - 1];
      NoDuplicates(front, g);
      assert logs == front + [logs[|logs| - 1]];
    }
  }

  lemma {:induction false} SentOnce(
    w: World, ag: Aggregated, starts: map<Id, int>, base: int, s: Lead, v: NodeView, toBlock: int, reply: seq<Log>,
    logs: seq<Log>, events: seq<Update>)
    requires Group(ag, starts, base) && Paged(w, ag, starts, base, s, v, toBlock, reply, logs, events)
    ensures Once(s.sent + events)
    ensures forall u :: u in s.sent + events ==> u.log in w.logs(u.log.blockHash)
  {
    forall u | u in events
      ensures multiset(events)[u] <= 1 && u !in s.sent && u.log in w.logs(u.log.blockHash)
    {
      EventsOfPage(w, ag, starts, base, s, v, toBlock, reply, logs, events, u);
    }
  }

  // What is recorded after the page was delivered, with its number
  lemma {:induction false} RecordsOfPage(
    w: World, ag: Aggregated, starts: map<Id, int>, base: int, s: Lead, v: NodeView, toBlock: int, reply: seq<Log>,
    logs: seq<Log>, events: seq<Update>, h: Hash)
    requires Group(ag, starts, base) && Paged(w, ag, starts, base, s, v, toBlock, reply, logs, events)
    requires h in Record(s.poll.delivered, logs)
    ensures Record(s.poll.delivered, logs)[h] == w.number(h) && Delivered(w, ag, starts, h, s.sent + events)
  {
    RecordMember(s.poll.delivered, logs);
    if h in s.poll.delivered {
      MoreDelivered(w, ag, starts, h, s.sent, events);
    }
    forall k | 0 <= k < |logs|
      ensures logs[k].blockNumber == w.number(logs[k].blockHash)
      ensures Delivered(w, ag, starts, logs[k].blockHash, s.sent + events)
    {
      LogOfPage(w, ag, starts, base, s, v, toBlock, reply, logs, events, k);
    }
  }

  lemma {:induction false} LogOfPage(
    w: World, ag: Aggregated, starts: map<Id, int>, base: int, s: Lead, v: NodeView, toBlock: int, reply: seq<Log>,
    logs: seq<Log>, events: seq<Update>, k: nat)
    requires Group(ag, starts, base) && Paged(w, ag, starts, base, s, v, toBlock, reply, logs, events) && k < |logs|
    ensures logs[k].blockNumber == w.number(logs[k].blockHash)
    ensures Delivered(w, ag, starts, logs[k].blockHash, s.sent + events)
  {
    assert logs[k] in reply;
    var j :| 0 <= j < |reply| && reply[j] == logs[k];
    PageDelivers(w, ag, starts, base, s, v, toBlock, reply, logs, events, logs[k].blockNumber);
  }

  // What was sent and is not behind the mark is still recorded
  lemma {:induction false} SentIsRecorded(
    w: World, ag: Aggregated, starts: map<Id, int>, base: int, s: Lead, v: NodeView, toBlock: int, reply: seq<Log>,
    logs: seq<Log>, events: seq<Update>, u: Update)
    requires Group(ag, starts, base) && Paged(w, ag, starts, base, s, v, toBlock, reply, logs, events)
    requires u in s.sent + events && u.log.blockNumber >= s.poll.fromBlock
    ensures u.log.blockHash in Record(s.poll.delivered, logs) && u.log.blockNumber == w.number(u.log.blockHash)
  {
    RecordMember(s.poll.delivered, logs);
    if u in events {
      EventsOfPage(w, ag, starts, base, s, v, toBlock, reply, logs, events, u);
    }
  }

  lemma {:induction false} MarksMove(
    ag: Aggregated, starts: map<Id, int>, base: int, hwm: map<Id, int>, fromBlock: int, mark: int)
    requires Group(ag, starts, base) && hwm.Keys == starts.Keys && fromBlock <= mark
    requires forall k :: 0 <= k < |ag.listeners| ==>
               hwm[ag.listeners[k].id] == Max(starts[ag.listeners[k].id], fromBlock)
    ensures var moved := MoveForwards(hwm, ag.listeners, mark);
            && moved.Keys == starts.Keys
            && forall k :: 0 <= k < |ag.listeners| ==>
                 moved[ag.listeners[k].id] == Max(starts[ag.listeners[k].id], mark)
  {
    forall k | 0 <= k < |ag.listeners|
      ensures HasId(ag.listeners, ag.listeners[k].id)
    {
    }
  }

  lemma {:induction false} DeliverKeepsInv(
    w: World, cfg: Config, ag: Aggregated, starts: map<Id, int>, base: int, s: Lead, i: Input, v: NodeView,
    toBlock: int, logs: seq<Log>, events: seq<Update>)
    requires Group(ag, starts, base) && cfg.lightMode && i.reply.Some?
    requires Environment(w, cfg, ag, s, i, v) && toBlock == Page(cfg, s.poll, i)
    requires Paged(w, ag, starts, base, s, v, toBlock, i.reply.value, logs, events)
    ensures Inv(w, ag, starts, base, Deliver(cfg, s, ag, i, s.poll, toBlock, logs, events))
  {
    var stable := StableHead(i.chainHead, cfg.checkpointBlockGap);
    var mark := HwmBlock(cfg, stable, s.poll.fromBlock, toBlock);
    SentOnce(w, ag, starts, base, s, v, toBlock, i.reply.value, logs, events);
    forall h | h in Record(s.poll.delivered, logs)
      ensures Record(s.poll.delivered, logs)[h] == w.number(h) && Delivered(w, ag, starts, h, s.sent + events)
    {
      RecordsOfPage(w, ag, starts, base, s, v, toBlock, i.reply.value, logs, events, h);
    }
    forall u | u in s.sent + events && u.log.blockNumber >= s.poll.fromBlock
      ensures u.log.blockHash in Record(s.poll.delivered, logs) && u.log.blockNumber == w.number(u.log.blockHash)
    {
      SentIsRecorded(w, ag, starts, base, s, v, toBlock, i.reply.value, logs, events, u);
    }
    MarksMove(ag, starts, base, s.hwm, s.poll.fromBlock, mark);
    forall n: nat | base <= n < mark
      ensures Delivered(w, ag, starts, w.final(n), s.sent + events)
    {
      if n < s.poll.fromBlock {
        MoreDelivered(w, ag, starts, w.final(n), s.sent, events);
      } else {
        PageDelivers(w, ag, starts, base, s, v, toBlock, i.reply.value, logs, events, n);
      }
    }
  }

  lemma {:induction false} CycleKeepsInv(
    w: World, cfg: Config, ag: Aggregated, starts: map<Id, int>, base: int, s: Lead, i: Input, v: NodeView)
    requires Group(ag, starts, base) && cfg.lightMode && CanReply(i) && Sound(w)
    requires Environment(w, cfg, ag, s, i, v) && Inv(w, ag, starts, base, s)
    ensures Inv(w, ag, starts, base, Cycle(cfg, s, ag, i).0)
  {
    if Cycle(cfg, s, ag, i).1.Polled? {
      var toBlock := Page(cfg, s.poll, i);
      var logs := Undelivered(s.poll.delivered, i.reply.value);
      IndexRefinesBruteForce(ag, ag.listeners, Mark(s.hwm), logs, i.enrich);
      DeliverKeepsInv(w, cfg, ag, starts, base, s, i, v, toBlock, logs, BruteForce(ag.listeners, Mark(s.hwm), logs));
    }
  }

  // Each cycle of a run is answered by some node, from its own view of the chain
  ghost predicate RunEnvironment(
    w: World, cfg: Config, ag: Aggregated, s: Lead, inputs: seq<Input>, views: seq<NodeView>)
    requires forall k :: 0 <= k < |inputs| ==> CanReply(inputs[k])
  {
    && |inputs| == |views|
    && forall k :: 0 <= k < |inputs| ==> Environment(w, cfg, ag, Run(cfg, s, ag, inputs[..k]), inputs[k], views[k])
  }

  lemma {:induction false} RunKeepsInv(
    w: World, cfg: Config, ag: Aggregated, starts: map<Id, int>, base: int, s: Lead, inputs: seq<Input>,
    views: seq<NodeView>)
    requires Group(ag, starts, base) && cfg.lightMode && Sound(w) && Inv(w, ag, starts, base, s)
    requires forall k :: 0 <= k < |inputs| ==> CanReply(inputs[k])
    requires RunEnvironment(w, cfg, ag, s, inputs, views)
    ensures Inv(w, ag, starts, base, Run(cfg, s, ag, inputs))
    decreases |inputs|
  {
    if inputs != [] {
      var last := |inputs| - 1;
      FrontEnvironment(w, cfg, ag, s, inputs, views);
      RunKeepsInv(w, cfg, ag, starts, base, s, inputs[..last], views[..last]);
      CycleKeepsInv(w, cfg, ag, starts, base, Run(cfg, s, ag, inputs[..last]), inputs[last], views[last]);
    }
  }

  lemma {:induction false} FrontEnvironment(
    w: World, cfg: Config, ag: Aggregated, s: Lead, inputs: seq<Input>, views: seq<NodeView>)
    requires inputs != [] && forall k :: 0 <= k < |inputs| ==> CanReply(inputs[k])
    requires RunEnvironment(w, cfg, ag, s, inputs, views)
    ensures var last := |inputs| - 1;
            && RunEnvironment(w, cfg, ag, s, inputs[..last], views[..last])
            && Environment(w, cfg, ag, Run(cfg, s, ag, inputs[..last]), inputs[last], views[last])
  {
    var last := |inputs| - 1;
    forall k | 0 <= k < last
      ensures Environment(w, cfg, ag, Run(cfg, s, ag, inputs[..last][..k]), inputs[..last][k], views[..last][k])
    {
      assert inputs[..last][..k] == inputs[..k];
    }
  }

  // No listener was sent an event of the same place in the same block again
  ghost predicate OncePerEvent(sent: seq<Update>) {
    forall i, j :: 0 <= i < j < |sent| && sent[i].listener == sent[j].listener ==> !SameEvent(sent[i].log, sent[j].log)
  }

  lemma {:induction false} OnceIsOncePerEvent(w: World, sent: seq<Update>)
    requires Sound(w) && Once(sent) && forall u :: u in sent ==> u.log in w.logs(u.log.blockHash)
    ensures OncePerEvent(sent)
  {
    forall i, j | 0 <= i < j < |sent| && sent[i].listener == sent[j].listener
      ensures !SameEvent(sent[i].log, sent[j].log)
    {
      assert sent[i] in sent && sent[j] in sent;
      assert sent == sent[..j] + sent[j..];
      assert sent[i] in multiset(sent[..j]) && sent[j] in multiset(sent[j..]);
      assert multiset(sent)[sent[j]] == multiset(sent[..j])[sent[j]] + multiset(sent[j..])[sent[j]];
    }
  }

  /** Over any run from a reset, with load-balanced nodes at different heights that silently truncate their answers:
      each listener has been sent every log it wants of every final block from its start to the committed base, and
      none has been sent the same block hash, transaction index and log index twice. */
  lemma {:induction false} NothingLostNothingTwice(
    w: World, cfg: Config, ag: Aggregated, starts: map<Id, int>, base: int, s: Lead, inputs: seq<Input>,
    views: seq<NodeView>)
    requires Group(ag, starts, base) && cfg.lightMode && Sound(w)
    requires s.poll == Poll(base, [], map[]) && s.hwm == starts
    requires forall k :: 0 <= k < |inputs| ==> CanReply(inputs[k])
    requires RunEnvironment(w, cfg, ag, s, inputs, views)
    ensures var r := Run(cfg, s, ag, inputs);
            && base <= r.poll.fromBlock && s.sent <= r.sent
            && (forall n: nat, k, g |
                 && base <= n < r.poll.fromBlock && 0 <= k < |ag.listeners| && g in w.logs(w.final(n))
                 && Wants(ag.listeners[k], starts[ag.listeners[k].id], g)
                 :: Update(ag.listeners[k].id, g) in r.sent[|s.sent|..])
            && OncePerEvent(r.sent[|s.sent|..])
  {
    var s0 := s.(sent := []);
    RunPushes(cfg, s, ag, inputs);
    SameEnvironment(w, cfg, ag, s, inputs, views);
    InvAtReset(w, ag, starts, base, s0);
    RunKeepsInv(w, cfg, ag, starts, base, s0, inputs, views);
    var r := Run(cfg, s0, ag, inputs);
    assert Run(cfg, s, ag, inputs).sent[|s.sent|..] == r.sent;
    OnceIsOncePerEvent(w, r.sent);
    forall n: nat, k, g |
      && base <= n < r.poll.fromBlock && 0 <= k < |ag.listeners| && g in w.logs(w.final(n))
      && Wants(ag.listeners[k], starts[ag.listeners[k].id], g)
      ensures Update(ag.listeners[k].id, g) in r.sent
    {
      assert Delivered(w, ag, starts, w.final(n), r.sent);
      assert DeliveredTo(w, ag.listeners[k], starts[ag.listeners[k].id], w.final(n), r.sent);
    }
  }

  // What was pushed before the run does not matter to the nodes
  lemma {:induction false} SameEnvironment(
    w: World, cfg: Config, ag: Aggregated, s: Lead, inputs: seq<Input>, views: seq<NodeView>)
    requires forall k :: 0 <= k < |inputs| ==> CanReply(inputs[k])
    requires RunEnvironment(w, cfg, ag, s, inputs, views)
    ensures RunEnvironment(w, cfg, ag, s.(sent := []), inputs, views)
  {
    forall k | 0 <= k < |inputs|
      ensures Environment(w, cfg, ag, Run(cfg, s.(sent := []), ag, inputs[..k]), inputs[k], views[k])
    {
      RunPushes(cfg, s, ag, inputs[..k]);
    }
  }

  // ----- Progress of a sweep -----

  // The page size is what a number of reductions have left of the configured one
  ghost predicate ReducedPage(settings: EventStream.Settings, cfg: Config, i: Input) {
    && EventStream.PageSizeOk(settings) && settings.lightMode && cfg.lightMode
    && settings.checkpointBlockGap == cfg.checkpointBlockGap
    && exists n: nat :: i.pageSize == EventStream.DownscaledTimes(settings, n).catchupPageSize
  }

  /** However often the page size was reduced, a page that succeeds either moves the committed base forwards, or
      the base has reached the stable head and the one page covers the whole window up to the head. */
  lemma {:induction false} SweepProgress(settings: EventStream.Settings, cfg: Config, s: Lead, ag: Aggregated, i: Input)
    requires ReducedPage(settings, cfg, i) && CanReply(i) && Cycle(cfg, s, ag, i).1.Polled?
    ensures var stable := StableHead(i.chainHead, cfg.checkpointBlockGap);
            var base, base' := s.poll.fromBlock, Cycle(cfg, s, ag, i).0.poll.fromBlock;
            && base <= base'
            && (base < stable ==> base < base' <= stable)
            && (base >= stable ==> base' == base && Page(cfg, s.poll, i) == i.chainHead)
  {
    var n: nat :| i.pageSize == EventStream.DownscaledTimes(settings, n).catchupPageSize;
    EventStream.PageSizeNeverTooSmall(settings, n);
  }

  // Every cycle sees the same head, and its page succeeds
  ghost predicate Sweeps(
    settings: EventStream.Settings, cfg: Config, s: Lead, ag: Aggregated, inputs: seq<Input>, head: nat)
    requires forall k :: 0 <= k < |inputs| ==> CanReply(inputs[k])
  {
    inputs == [] ||
      var front, last := inputs[..|inputs| - 1], inputs[|inputs| - 1];
      && Sweeps(settings, cfg, s, ag, front, head)
      && last.chainHead == head && ReducedPage(settings, cfg, last)
      && Cycle(cfg, Run(cfg, s, ag, front), ag, last).1.Polled?
  }

  /** At a head that stays, the base reaches the stable head within as many successful pages as it is behind. */
  lemma {:induction false} SweepReachesStable(
    settings: EventStream.Settings, cfg: Config, s: Lead, ag: Aggregated, inputs: seq<Input>, head: nat)
    requires forall k :: 0 <= k < |inputs| ==> CanReply(inputs[k])
    requires Sweeps(settings, cfg, s, ag, inputs, head)
    ensures var reached := Run(cfg, s, ag, inputs).poll.fromBlock;
            reached >= StableHead(head, cfg.checkpointBlockGap) || reached >= s.poll.fromBlock + |inputs|
  {
    if inputs != [] {
      var front := inputs[..|inputs| - 1];
      SweepReachesStable(settings, cfg, s, ag, front, head);
      SweepProgress(settings, cfg, Run(cfg, s, ag, front), ag, inputs[|inputs| - 1]);
    }
  }
}

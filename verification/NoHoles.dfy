/**
 What the protocol proves, for the loops themselves: no block is skipped, and no log is missed.
 */
module NoHoles {
  import opened Blocks
  import opened AggregatedListener
  import opened EventListener
  import opened GetLogsPolling
  import opened SteadyState
  import E = EventStream
  import H = Handover
  import P = ScanProtocol
  import opened ScanSimulation

  // ----- A state of the protocol to begin with -----

  function Find(listeners: seq<Listener>, id: Id): Listener
    requires id in Ids(listeners)
  {
    if listeners[0].id == id then listeners[0]
    else
      var i :| 0 <= i < |listeners| && listeners[i].id == id;
      assert listeners[1..][i - 1].id == id;
      Find(listeners[1..], id)
  }

  lemma {:induction false} FindListener(listeners: seq<Listener>, i: nat)
    requires DistinctIds(listeners) && i < |listeners|
    ensures listeners[i].id in Ids(listeners) && Find(listeners, listeners[i].id) == listeners[i]
  {
    if i > 0 {
      FindListener(listeners[1..], i - 1);
    }
  }

  function Joined(config: Listener, mark: int, last: Option<Checkpoint>): P.Member {
    P.Member(config, mark, mark, false, false, last, [])
  }

  // The group at its marks, with nothing polled or pushed yet
  function StartOf(l: Lead, listeners: seq<Listener>, head: nat): P.State {
    P.State(head, l.headBlock,
            map id | id in Ids(listeners) ::
              Joined(Find(listeners, id), Mark(l.hwm)(id), Detected(l.detected, id)),
            0, Some(P.Group(Ids(listeners), 0)), None, map[], [])
  }

  ghost predicate IsGroup(l: Lead, ag: Aggregated) {
    && IsIndex(ag, ag.listeners) && ag.listeners != [] && DistinctIds(ag.listeners) && HaveMarks(l.hwm, ag.listeners)
    && l.headBlock >= -1
  }

  lemma {:induction false} StartOk(cfg: Config, l: Lead, ag: Aggregated, head: nat)
    requires IsGroup(l, ag) && l.headBlock <= P.Stable(cfg, head)
    ensures P.Inv(cfg, StartOf(l, ag.listeners, head)) && Related(StartOf(l, ag.listeners, head), l, ag)
  {
    forall i | 0 <= i < |ag.listeners|
      ensures var (s, id) := (StartOf(l, ag.listeners, head), ag.listeners[i].id);
              id in s.members && s.members[id] == Joined(ag.listeners[i], l.hwm[id], Detected(l.detected, id))
    {
      StartMember(l, ag, head, i);
    }
  }

  lemma {:induction false} StartMember(l: Lead, ag: Aggregated, head: nat, i: nat)
    requires IsGroup(l, ag) && i < |ag.listeners|
    ensures var (s, id) := (StartOf(l, ag.listeners, head), ag.listeners[i].id);
            id in s.members && s.members[id] == Joined(ag.listeners[i], l.hwm[id], Detected(l.detected, id))
  {
    FindListener(ag.listeners, i);
  }

  // A head that is at or above all that are seen, and puts the stable head at or above a position
  function TopHead(cfg: Config, inputs: seq<Input>, headBlock: int): (head: nat)
    requires headBlock >= -1
    ensures headBlock <= P.Stable(cfg, head)
    ensures forall k :: 0 <= k < |inputs| ==> inputs[k].chainHead <= head
  {
    if inputs == [] then headBlock + 1 + cfg.checkpointBlockGap
    else
      var rest := TopHead(cfg, inputs[1..], headBlock);
      assert forall k :: 0 < k < |inputs| ==> inputs[k] == inputs[1..][k - 1];
      if inputs[0].chainHead > rest then inputs[0].chainHead else rest
  }

  // ----- From the history of a listener to the pages of a loop -----

  lemma {:induction false} HistoryMissesNone(m: P.Member, l: Listener, pollings: seq<Polling>, sent: seq<Update>)
    requires P.NoHoles(m, l.id, sent) && m.config == l && m.scans == ScansOf(pollings, l.id)
    ensures NoneMissed(l, m.start, m.hwm, pollings, sent)
  {
    forall b | m.start <= b < m.hwm
      ensures PolledFor(pollings, l.id, b)
    {
      assert P.Scanned(m, b);
      var k :| 0 <= k < |m.scans| && m.scans[k].fromBlock <= b <= m.scans[k].toBlock && m.scans[k].mark <= b;
    }
    forall k, g | 0 <= k < |pollings| && g in pollings[k].logs && Wants(l, Mark(pollings[k].hwm)(l.id), g)
      ensures Update(l.id, g) in sent
    {
      assert P.ScanPushed(m, m.scans[k], l.id, sent);
    }
  }

  // A listener that was nowhere before, in a state that is reached
  lemma {:induction false} MemberMissesNone(
    m: P.Member, m': P.Member, l: Listener, mark: int, pollings: seq<Polling>, sent: seq<Update>)
    requires m == Joined(l, mark, m.lastDetected) && P.MemberFurther(m, m') && P.NoHoles(m', l.id, sent)
    requires m'.scans == m.scans + ScansOf(pollings, l.id)
    ensures NoneMissed(l, mark, m'.hwm, pollings, sent)
  {
    assert m'.scans == ScansOf(pollings, l.id);
    HistoryMissesNone(m', l, pollings, sent);
  }

  // What is reached from the start of the group misses nothing
  lemma {:induction false} OutcomeMissesNone(cfg: Config, l: Lead, ag: Aggregated, head: nat, o: Outcome, i: nat)
    requires IsGroup(l, ag) && l.headBlock <= P.Stable(cfg, head) && i < |ag.listeners|
    requires Simulates(cfg, StartOf(l, ag.listeners, head), l, ag, o)
    ensures ag.listeners[i].id in o.lead.hwm && l.sent <= o.lead.sent
    ensures var id := ag.listeners[i].id;
            NoneMissed(ag.listeners[i], l.hwm[id], o.lead.hwm[id], o.pollings, Since(l, o.lead))
  {
    var s, id := StartOf(l, ag.listeners, head), ag.listeners[i].id;
    StartOk(cfg, l, ag, head);
    StartMember(l, ag, head, i);
    var s' :| Reaches(cfg, s, s') && LeadMatches(s, s', l, ag, o);
    ReachedKeepsInv(cfg, s, s', id);
    MemberMissesNone(s.members[id], s'.members[id], ag.listeners[i], l.hwm[id], o.pollings, s'.sent);
  }

  lemma {:induction false} ReachedKeepsInv(cfg: Config, s: P.State, s': P.State, id: Id)
    requires P.Inv(cfg, s) && Reaches(cfg, s, s') && id in s.members
    ensures id in s'.members && P.NoHoles(s'.members[id], id, s'.sent)
    ensures P.MemberFurther(s.members[id], s'.members[id])
  {
    var steps :| P.IsRun(cfg, s, steps, s');
    P.RunKeepsInv(cfg, s, steps, s');
  }

  // ----- The loops -----

  /** The steady state, in both modes, over any run from where its position was established, with any heads, snapshots,
      page sizes and failures: each block from a listener's mark to the one it ends at was polled in a page while it was
      not behind the mark, and each log that the listener wants of what such a page brought was pushed. In light mode
      that is the part of the reply from blocks not delivered before. */
  lemma {:induction false} SteadyMissesNone(cfg: Config, l: Lead, ag: Aggregated, inputs: seq<Input>, i: nat)
    requires IsGroup(l, ag) && i < |ag.listeners|
    requires forall k :: 0 <= k < |inputs| ==> CanReply(inputs[k]) && (cfg.lightMode || Linked(inputs[k].snapshot))
    ensures var l0 := Restarted(l, ag.listeners);
            var (l', id) := (Run(cfg, l0, ag, inputs), ag.listeners[i].id);
            && id in l'.hwm && l.sent <= l'.sent
            && NoneMissed(ag.listeners[i], l.hwm[id], l'.hwm[id], RunPollings(cfg, l0, ag, inputs), Since(l, l'))
  {
    var head := TopHead(cfg, inputs, l.headBlock);
    StartOk(cfg, l, ag, head);
    RunFromReset(cfg, StartOf(l, ag.listeners, head), l, ag, inputs);
    OutcomeMissesNone(cfg, l, ag, head, OfRun(cfg, Restarted(l, ag.listeners), ag, inputs), i);
  }

  lemma {:induction false} RunFromReset(cfg: Config, s: P.State, l: Lead, ag: Aggregated, inputs: seq<Input>)
    requires Related(s, l, ag) && s.poll == None && CanSee(cfg, s.head, inputs)
    ensures Simulates(cfg, s, l, ag, OfRun(cfg, Restarted(l, ag.listeners), ag, inputs))
  {
    var l0 := Restarted(l, ag.listeners);
    ResetIsStep(cfg, s, l, ag);
    var o0, o := Outcome(l0, Some(l0.poll.fromBlock), []), OfRun(cfg, l0, ag, inputs);
    var s0 :| Reaches(cfg, s, s0) && LeadMatches(s, s0, l, ag, o0);
    SteadyRunIsRun(cfg, s0, l0, ag, inputs);
    SimulationsCompose(cfg, s, s0, l, ag, o0, o);
    assert [] + o.pollings == o.pollings;
  }

  /** Catchup of the lead group, with any heads, page sizes and failures. */
  lemma {:induction false} CatchupMissesNone(cfg: Config, l: Lead, ag: Aggregated, inputs: seq<Input>, i: nat)
    requires IsGroup(l, ag) && i < |ag.listeners| && cfg.catchupThreshold >= 1
    requires forall k :: 0 <= k < |inputs| ==> CanReply(inputs[k]) && inputs[k].pageSize >= 1
    ensures var (l', id) := (E.CatchupRun(cfg, l, ag, inputs).0, ag.listeners[i].id);
            && id in l'.hwm && l.sent <= l'.sent
            && NoneMissed(ag.listeners[i], l.hwm[id], l'.hwm[id], E.CatchupPollings(cfg, l, ag, inputs), Since(l, l'))
  {
    var head := TopHead(cfg, inputs, l.headBlock);
    StartOk(cfg, l, ag, head);
    CatchupRunIsRun(cfg, StartOf(l, ag.listeners, head), l, ag, inputs);
    OutcomeMissesNone(cfg, l, ag, head, OfCatchup(cfg, l, ag, inputs), i);
  }

  // A listener on its own, with the lead group at or in front of every position that is seen
  function TopCeiling(moments: seq<E.Moment>): (headBlock: int)
    ensures headBlock >= -1 && forall k :: 0 <= k < |moments| ==> moments[k].ceiling <= headBlock
  {
    if moments == [] then -1
    else
      var rest := TopCeiling(moments[1..]);
      assert forall k :: 0 < k < |moments| ==> moments[k] == moments[1..][k - 1];
      Max(moments[0].ceiling, rest)
  }

  function StartOfOne(config: Listener, o: E.Own, headBlock: int): P.State {
    P.State(0, headBlock, map[config.id := Joined(config, o.hwm, o.lastDetected).(catchup := o.catchup)], 0, None,
            None, map[], [])
  }

  /** Catchup of a listener on its own, with any positions of the lead group, page sizes, failures and removal. */
  lemma {:induction false} OwnMissesNone(
    config: Listener, o: E.Own, al: Aggregated, moments: seq<E.Moment>, threshold: int)
    requires IsIndex(al, [config]) && forall k :: 0 <= k < |moments| ==> E.CanReplyOwn(moments[k])
    ensures var o' := E.OwnRun(al, o, moments, threshold).0;
            && o.sent <= o'.sent
            && NoneMissed(config, o.hwm, o'.hwm, E.OwnPollings(al, config.id, o, moments, threshold),
                          o'.sent[|o.sent|..])
  {
    var cfg, id := Config(true, 0, threshold), config.id;
    var s, o' := StartOfOne(config, o, TopCeiling(moments)), E.OwnRun(al, o, moments, threshold).0;
    var pollings := E.OwnPollings(al, id, o, moments, threshold);
    StartOfOneOk(cfg, config, o, TopCeiling(moments));
    OwnRunIsRun(cfg, s, id, o, al, moments);
    var s' :| Reaches(cfg, s, s') && OwnMatches(s, s', id, o, al, o', pollings);
    ReachedKeepsInv(cfg, s, s', id);
    HistoryMissesNone(s'.members[id], config, pollings, s'.sent);
  }

  lemma {:induction false} StartOfOneOk(cfg: Config, config: Listener, o: E.Own, headBlock: int)
    requires cfg.lightMode && headBlock >= -1
    ensures P.Inv(cfg, StartOfOne(config, o, headBlock))
  {
  }
}

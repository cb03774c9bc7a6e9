/**
 The loops are what the protocol says they are: every cycle of the steady state, every page of catchup, and every
 page of a listener's own catchup is a run of the protocol's steps with the same outcome.
 */
module ScanSimulation {
  import opened Blocks
  import opened AggregatedListener
  import opened EventListener
  import opened GetLogsPolling
  import opened SteadyState
  import E = EventStream
  import H = Handover
  import opened P = ScanProtocol

  // ----- Composing runs -----

  ghost predicate Reaches(cfg: Config, s: State, s': State) {
    exists steps :: IsRun(cfg, s, steps, s')
  }

  lemma {:induction false} RunsCompose(cfg: Config, s: State, a: seq<Step>, s1: State, b: seq<Step>, s2: State)
    requires IsRun(cfg, s, a, s1) && IsRun(cfg, s1, b, s2)
    ensures IsRun(cfg, s, a + b, s2)
    decreases |a|
  {
    if a == [] {
      assert a + b == b;
    } else {
      RunsCompose(cfg, P.Apply(cfg, s, a[0]), a[1..], s1, b, s2);
      assert (a + b)[1..] == a[1..] + b;
    }
  }

  lemma {:induction false} ReachesCompose(cfg: Config, s: State, s1: State, s2: State)
    requires Reaches(cfg, s, s1) && Reaches(cfg, s1, s2)
    ensures Reaches(cfg, s, s2)
  {
    var a :| IsRun(cfg, s, a, s1);
    var b :| IsRun(cfg, s1, b, s2);
    RunsCompose(cfg, s, a, s1, b, s2);
  }

  lemma {:induction false} ReachesNow(cfg: Config, s: State)
    ensures Reaches(cfg, s, s)
  {
    assert IsRun(cfg, s, [], s);
  }

  lemma {:induction false} ReachesStep(cfg: Config, s: State, step: Step)
    requires Enabled(cfg, s, step)
    ensures Reaches(cfg, s, P.Apply(cfg, s, step))
  {
    assert IsRun(cfg, s, [step], P.Apply(cfg, s, step));
  }

  // ----- A page, from its answer to its end -----

  ghost predicate SameButMark(m: Member, m': Member) {
    m'.config == m.config && m'.catchup == m.catchup
  }

  // Marks and all that is not a page stay as they are
  ghost predicate SameButSent(s: State, s': State) {
    && s'.members.Keys == s.members.Keys
    && s' == s.(members := s'.members, flights := s'.flights, sent := s'.sent)
    && forall id :: id in s.members ==>
         && SameButMark(s.members[id], s'.members[id]) && s'.members[id].hwm == s.members[id].hwm
         && s'.members[id].scans == s.members[id].scans
  }

  // The checkpoint of each listener follows its own events
  ghost predicate Detects(s: State, s': State, events: seq<Update>) {
    forall id :: id in s.members && id in s'.members ==>
      s'.members[id].lastDetected == MarkFor(s.members[id].lastDetected, events, id)
  }

  function WithEvents(s: State, loop: Loop, a: Answer, events: seq<Update>): map<Loop, Flight>
    requires loop in s.flights
  {
    s.flights[loop := s.flights[loop].(answer := Some(a.(events := events)))]
  }

  // The first event is marked and pushed
  lemma {:induction false} DispatchOnce(cfg: Config, s: State, loop: Loop, a: Answer) returns (s': State)
    requires loop in s.flights && s.flights[loop].answer == Some(a) && !a.detected
    requires a.events != [] && a.events[0].listener in s.members
    ensures Reaches(cfg, s, s') && SameButSent(s, s') && s'.sent == s.sent + [a.events[0]]
    ensures s'.flights == WithEvents(s, loop, a, a.events[1..]) && Detects(s, s', [a.events[0]])
  {
    var s1 := P.Apply(cfg, s, Detect(loop));
    ReachesStep(cfg, s, Detect(loop));
    s' := PushDetected(cfg, s1, loop, a.(detected := true));
    ReachesCompose(cfg, s, s1, s');
    assert s'.flights == WithEvents(s, loop, a, a.events[1..]);
    forall id | id in s.members
      ensures s'.members[id].lastDetected == MarkFor(s.members[id].lastDetected, [a.events[0]], id)
    {
      MarkForOne(s.members[id].lastDetected, a.events[0], id);
    }
  }

  lemma {:induction false} PushDetected(cfg: Config, s: State, loop: Loop, a: Answer) returns (s': State)
    requires loop in s.flights && s.flights[loop].answer == Some(a) && a.detected && a.events != []
    ensures Reaches(cfg, s, s') && s' == s.(flights := s'.flights, sent := s.sent + [a.events[0]])
    ensures s'.flights == WithEvents(s, loop, a.(detected := false), a.events[1..])
  {
    s' := P.Apply(cfg, s, Push(loop));
    ReachesStep(cfg, s, Push(loop));
  }

  lemma {:induction false} DispatchesCompose(s: State, s1: State, s2: State, loop: Loop, a: Answer)
    requires loop in s.flights && s.flights[loop].answer == Some(a) && a.events != []
    requires SameButSent(s, s1) && s1.sent == s.sent + [a.events[0]]
             && s1.flights == WithEvents(s, loop, a, a.events[1..])
    requires SameButSent(s1, s2) && s2.sent == s1.sent + a.events[1..]
    requires s2.flights == WithEvents(s1, loop, a.(events := a.events[1..]), [])
    requires Detects(s, s1, [a.events[0]]) && Detects(s1, s2, a.events[1..])
    ensures SameButSent(s, s2) && s2.sent == s.sent + a.events && s2.flights == WithEvents(s, loop, a, [])
    ensures Detects(s, s2, a.events)
  {
    assert a.events == [a.events[0]] + a.events[1..];
    forall id | id in s.members
      ensures s2.members[id].lastDetected == MarkFor(s.members[id].lastDetected, a.events, id)
    {
      MarkForFirst(s.members[id].lastDetected, a.events[0], a.events[1..], id);
    }
  }

  lemma {:induction false} DispatchRuns(cfg: Config, s: State, loop: Loop, a: Answer) returns (s': State)
    requires loop in s.flights && s.flights[loop].answer == Some(a) && !a.detected
    requires forall u :: u in a.events ==> u.listener in s.members
    ensures Reaches(cfg, s, s') && SameButSent(s, s') && s'.sent == s.sent + a.events
    ensures s'.flights == WithEvents(s, loop, a, []) && Detects(s, s', a.events)
    decreases |a.events|
  {
    if a.events == [] {
      ReachesNow(cfg, s);
      s' := s;
    } else {
      assert a.events[0] in a.events;
      var s1 := DispatchOnce(cfg, s, loop, a);
      s' := DispatchRuns(cfg, s1, loop, a.(events := a.events[1..]));
      ReachesCompose(cfg, s, s1, s');
      DispatchesCompose(s, s1, s', loop, a);
    }
  }

  // A listener whose mark was moved behind the page, with the page in its history
  ghost predicate MovedBehind(m: Member, m': Member, f: Flight, a: Answer, id: Id) {
    id in a.marks && m'.hwm == Max(m.hwm, f.mark) && m'.scans == m.scans + [ScanOf(f, a, id)]
  }

  // The marks of these listeners are moved
  ghost predicate Moved(s: State, s': State, ids: set<Id>, f: Flight, a: Answer) {
    && s'.members.Keys == s.members.Keys && s' == s.(members := s'.members, flights := s'.flights)
    && forall id :: id in s.members ==>
         && SameButMark(s.members[id], s'.members[id])
         && s'.members[id].lastDetected == s.members[id].lastDetected
         && (id in ids ==> MovedBehind(s.members[id], s'.members[id], f, a, id))
         && (id !in ids ==> s'.members[id] == s.members[id])
  }

  function WithMoved(s: State, loop: Loop, a: Answer, moved: set<Id>): map<Loop, Flight>
    requires loop in s.flights
  {
    s.flights[loop := s.flights[loop].(answer := Some(a.(moved := moved)))]
  }

  lemma {:induction false} MoveOnce(cfg: Config, s: State, loop: Loop, a: Answer, id: Id) returns (s': State)
    requires loop in s.flights && s.flights[loop].answer == Some(a) && a.events == []
    requires id in a.marks && id in s.members && id !in a.moved
    ensures Reaches(cfg, s, s') && Moved(s, s', {id}, s.flights[loop], a)
    ensures s'.flights == WithMoved(s, loop, a, a.moved + {id})
  {
    s' := P.Apply(cfg, s, Move(loop, id));
    ReachesStep(cfg, s, Move(loop, id));
  }

  lemma {:induction false} MovesCompose(s: State, s1: State, s2: State, loop: Loop, a: Answer, id: Id, ids: set<Id>)
    requires loop in s.flights && s.flights[loop].answer == Some(a) && id in ids
    requires Moved(s, s1, {id}, s.flights[loop], a) && loop in s1.flights
    requires Moved(s1, s2, ids - {id}, s1.flights[loop], a.(moved := a.moved + {id}))
    requires s1.flights == WithMoved(s, loop, a, a.moved + {id})
    requires s2.flights == WithMoved(s1, loop, a.(moved := a.moved + {id}), a.moved + {id} + (ids - {id}))
    ensures Moved(s, s2, ids, s.flights[loop], a) && s2.flights == WithMoved(s, loop, a, a.moved + ids)
  {
    assert a.moved + {id} + (ids - {id}) == a.moved + ids;
  }

  lemma {:induction false} MovesRun(cfg: Config, s: State, loop: Loop, a: Answer, ids: set<Id>) returns (s': State)
    requires loop in s.flights && s.flights[loop].answer == Some(a) && a.events == []
    requires ids <= a.marks.Keys && ids <= s.members.Keys && ids !! a.moved
    ensures Reaches(cfg, s, s') && Moved(s, s', ids, s.flights[loop], a)
    ensures s'.flights == WithMoved(s, loop, a, a.moved + ids)
    decreases |ids|
  {
    if ids == {} {
      ReachesNow(cfg, s);
      s' := s;
      assert a.moved + ids == a.moved;
    } else {
      var id :| id in ids;
      var s1 := MoveOnce(cfg, s, loop, a, id);
      s' := MovesRun(cfg, s1, loop, a.(moved := a.moved + {id}), ids - {id});
      ReachesCompose(cfg, s, s1, s');
      MovesCompose(s, s1, s', loop, a, id, ids);
    }
  }

  // A listener that the page was for, and one that it was not for
  ghost predicate AfterPage(m: Member, m': Member, f: Flight, returned: seq<Log>) {
    && SameButMark(m, m') && m'.hwm == Max(m.hwm, f.mark)
    && m'.scans == m.scans + [P.Scan(f.fromBlock, f.toBlock, m.hwm, returned)]
  }

  ghost predicate AsBefore(m: Member, m': Member) {
    SameButMark(m, m') && m'.hwm == m.hwm && m'.scans == m.scans
  }

  // The page is finished: its events were marked as detected and pushed, the marks of its listeners moved, and the page
  // with all that the node returned is in their history
  ghost predicate PageDone(
    cfg: Config, s: State, s': State, loop: Loop, returned: seq<Log>, events: seq<Update>)
    requires loop in s.flights
  {
    && PageSent(cfg, s, s', loop, events) && s'.members.Keys == s.members.Keys && Detects(s, s', events)
    && forall id :: id in s.members ==>
         if id in s.flights[loop].members then AfterPage(s.members[id], s'.members[id], s.flights[loop], returned)
         else AsBefore(s.members[id], s'.members[id])
  }

  // The part of it that is not about listeners
  ghost predicate PageSent(cfg: Config, s: State, s': State, loop: Loop, events: seq<Update>)
    requires loop in s.flights
  {
    var f := s.flights[loop];
    && s'.flights == s.flights - {loop} && s'.sent == s.sent + events && s'.head == s.head && s'.group == s.group
    && s'.headBlock == (if f.steady then Max(s.headBlock, f.mark) else s.headBlock)
    && s'.poll == (if f.steady then Some(if cfg.lightMode then f.mark else f.toBlock + 1) else s.poll)
  }

  // A page that is ready to be finished
  lemma {:induction false} FinishPage(cfg: Config, s: State, s3: State, loop: Loop, a: Answer, events: seq<Update>)
    requires loop in s.flights && a.events == [] && a.moved == s.flights[loop].members
    requires s3 == s.(members := s3.members, flights := s3.flights, sent := s.sent + events)
    requires s3.flights == s.flights[loop := s.flights[loop].(answer := Some(a))]
    ensures Enabled(cfg, s3, Finish(loop)) && PageSent(cfg, s, P.Apply(cfg, s3, Finish(loop)), loop, events)
    ensures P.Apply(cfg, s3, Finish(loop)).members == s3.members
  {
    assert P.Apply(cfg, s3, Finish(loop)).flights == s.flights - {loop};
  }

  lemma {:induction false} PageMembers(
    s: State, s2: State, s3: State, f: Flight, a: Answer, returned: seq<Log>)
    requires s2.members.Keys == s.members.Keys == s3.members.Keys
    requires forall id :: id in s.members ==> AsBefore(s.members[id], s2.members[id])
    requires a.returned == returned && a.marks.Keys == f.members
    requires forall id :: id in f.members && id in s.members ==> a.marks[id] == s.members[id].hwm
    requires Moved(s2, s3, f.members, f, a)
    ensures forall id :: id in s.members ==>
              if id in f.members then AfterPage(s.members[id], s3.members[id], f, returned)
              else AsBefore(s.members[id], s3.members[id])
  {
  }

  // Moving marks does not depend on where the answer is kept
  lemma {:induction false} MovedAlike(s: State, s': State, ids: set<Id>, f: Flight, f': Flight, a: Answer, a': Answer)
    requires Moved(s, s', ids, f, a) && a'.marks == a.marks && a'.returned == a.returned
    requires f'.fromBlock == f.fromBlock && f'.toBlock == f.toBlock && f'.mark == f.mark
    ensures Moved(s, s', ids, f', a')
  {
  }

  /** Whatever the answer to a query is, the page can run to its end. */
  lemma {:induction false} PageRuns(
    cfg: Config, s: State, loop: Loop, returned: seq<Log>, events: seq<Update>)
    returns (s': State)
    requires Enabled(cfg, s, Receive(loop, returned, events)) && s.flights[loop].members <= s.members.Keys
    ensures Reaches(cfg, s, s') && PageDone(cfg, s, s', loop, returned, events)
  {
    var s1, a := ReceivePage(cfg, s, loop, returned, events);
    var s2 := DispatchRuns(cfg, s1, loop, a);
    var a2, ids := a.(events := []), s.flights[loop].members;
    var s3 := MovesRun(cfg, s2, loop, a2, ids);
    assert {} + ids == ids;
    assert s3.flights == s.flights[loop := s.flights[loop].(answer := Some(a2.(moved := ids)))];
    FinishPage(cfg, s, s3, loop, a2.(moved := ids), events);
    s' := P.Apply(cfg, s3, Finish(loop));
    PageReaches(cfg, s, s1, s2, s3, loop);
    MovedAlike(s2, s3, ids, s2.flights[loop], s.flights[loop], a2, a);
    PageMembers(s, s2, s3, s.flights[loop], a, returned);
    assert Detects(s, s', events);
  }

  lemma {:induction false} ReceivePage(
    cfg: Config, s: State, loop: Loop, returned: seq<Log>, events: seq<Update>)
    returns (s1: State, a: Answer)
    requires Enabled(cfg, s, Receive(loop, returned, events)) && s.flights[loop].members <= s.members.Keys
    ensures Reaches(cfg, s, s1) && s1 == WithAnswer(s, loop, a)
    ensures a.events == events && a.returned == returned && a.moved == {} && !a.detected
    ensures a.marks.Keys == s.flights[loop].members
    ensures forall id :: id in s.flights[loop].members ==> a.marks[id] == s.members[id].hwm
    ensures forall u :: u in events ==> u.listener in s.members
  {
    s1 := P.Apply(cfg, s, Receive(loop, returned, events));
    a := s1.flights[loop].answer.value;
    ReachesStep(cfg, s, Receive(loop, returned, events));
  }

  lemma {:induction false} PageReaches(cfg: Config, s: State, s1: State, s2: State, s3: State, loop: Loop)
    requires Reaches(cfg, s, s1) && Reaches(cfg, s1, s2) && Reaches(cfg, s2, s3) && Enabled(cfg, s3, Finish(loop))
    ensures Reaches(cfg, s, P.Apply(cfg, s3, Finish(loop)))
  {
    ReachesCompose(cfg, s, s1, s2);
    ReachesCompose(cfg, s, s2, s3);
    ReachesStep(cfg, s3, Finish(loop));
    ReachesCompose(cfg, s, s3, P.Apply(cfg, s3, Finish(loop)));
  }

  // ----- The lead group -----

  function Ids(listeners: seq<Listener>): set<Id> {
    set i | 0 <= i < |listeners| :: listeners[i].id
  }

  // The same listeners at the same marks, with the same checkpoints, and the same position of the lead group
  ghost predicate Related(s: State, l: SteadyState.Lead, ag: Aggregated) {
    && IsIndex(ag, ag.listeners) && ag.listeners != [] && HaveMarks(l.hwm, ag.listeners)
    && Idle(s) && s.group.Some? && s.group.value.members == Ids(ag.listeners) && s.headBlock == l.headBlock
    && forall i :: 0 <= i < |ag.listeners| ==>
         var id := ag.listeners[i].id;
         && id in s.members && s.members[id].config == ag.listeners[i] && s.members[id].hwm == l.hwm[id]
         && s.members[id].lastDetected == Detected(l.detected, id)
  }

  // What the index selects is what the protocol selects
  lemma {:induction false} FilteredIsSelected(
    s: State, l: SteadyState.Lead, ag: Aggregated, f: Flight, logs: seq<Log>, enrich: Enricher)
    requires Related(s, l, ag) && f.members == Ids(ag.listeners)
    requires forall i :: 0 <= i < |logs| ==> logs[i].topics != []
    requires FilterLogs(ag, Mark(l.hwm), logs, enrich).Some?
    ensures Selected(s, f, logs, FilterLogs(ag, Mark(l.hwm), logs, enrich).value)
  {
    IndexRefinesBruteForce(ag, ag.listeners, Mark(l.hwm), logs, enrich);
    forall u: Update
      ensures u in BruteForce(ag.listeners, Mark(l.hwm), logs) <==>
        && u.listener in f.members && u.listener in s.members && u.log in logs
        && Wants(s.members[u.listener].config, s.members[u.listener].hwm, u.log)
    {
      BruteForceMember(ag.listeners, Mark(l.hwm), logs, u);
    }
  }

  // A page of the lead group, in both
  lemma {:induction false} RelatedAfterPage(
    s: State, s': State, l: SteadyState.Lead, ag: Aggregated, mark: int, events: seq<Update>, l': SteadyState.Lead)
    requires Related(s, l, ag) && Idle(s') && s'.group == s.group && s'.members.Keys == s.members.Keys
    requires l'.hwm == MoveForwards(l.hwm, ag.listeners, mark) && s'.headBlock == l'.headBlock
    requires l'.detected == DetectAll(l.detected, events) && Detects(s, s', events)
    requires forall id :: id in s.members ==>
               && s'.members[id].config == s.members[id].config
               && s'.members[id].hwm ==
                    if id in Ids(ag.listeners) then Max(s.members[id].hwm, mark) else s.members[id].hwm
    ensures Related(s', l', ag)
  {
    LowestMarkMoves(l.hwm, ag.listeners, mark);
    forall i | 0 <= i < |ag.listeners|
      ensures s'.members[ag.listeners[i].id].lastDetected == Detected(l'.detected, ag.listeners[i].id)
    {
      DetectAllFor(l.detected, events, ag.listeners[i].id);
    }
  }

  // What was pushed since
  function Since(l: SteadyState.Lead, l': SteadyState.Lead): seq<Update>
    requires l.sent <= l'.sent
  {
    l'.sent[|l.sent|..]
  }

  // The history that a sequence of pages comes to, for one listener
  function ScansOf(pollings: seq<Polling>, id: Id): (scans: seq<P.Scan>)
    ensures |scans| == |pollings|
  {
    seq(|pollings|, k requires 0 <= k < |pollings| =>
      P.Scan(pollings[k].fromBlock, pollings[k].toBlock, Mark(pollings[k].hwm)(id), pollings[k].logs))
  }

  lemma {:induction false} ScansAppend(a: seq<Polling>, b: seq<Polling>, id: Id)
    ensures ScansOf(a + b, id) == ScansOf(a, id) + ScansOf(b, id)
  {
  }

  lemma {:induction false} OnePageScans(fromBlock: int, toBlock: int, hwm: map<Id, int>, logs: seq<Log>, id: Id)
    ensures ScansOf([Polling(fromBlock, toBlock, hwm, logs)], id) == [P.Scan(fromBlock, toBlock, Mark(hwm)(id), logs)]
  {
  }

  // Just these pages were added to the history of each listener
  ghost predicate ScansAdded(s: State, s': State, listeners: seq<Listener>, pollings: seq<Polling>) {
    forall i :: 0 <= i < |listeners| ==>
      var id := listeners[i].id;
      id in s.members && id in s'.members && s'.members[id].scans == s.members[id].scans + ScansOf(pollings, id)
  }

  // The outcome of a piece of a loop: its new state, its position for the protocol, and the pages it polled
  datatype Outcome = Outcome(lead: SteadyState.Lead, poll: Option<int>, pollings: seq<Polling>)

  // A state of the protocol that matches it: it pushed the same events in the same order, and polled the same pages,
  // to which the node returned the same logs
  ghost predicate LeadMatches(s: State, s': State, l: SteadyState.Lead, ag: Aggregated, o: Outcome) {
    && l.sent <= o.lead.sent && Related(s', o.lead, ag) && s'.head == s.head && s'.poll == o.poll
    && s'.sent == s.sent + Since(l, o.lead) && ScansAdded(s, s', ag.listeners, o.pollings)
  }

  // The protocol can get there
  ghost predicate Simulates(cfg: Config, s: State, l: SteadyState.Lead, ag: Aggregated, o: Outcome) {
    exists s' :: Reaches(cfg, s, s') && LeadMatches(s, s', l, ag, o)
  }

  lemma {:induction false} SimulatedBy(
    cfg: Config, s: State, s': State, l: SteadyState.Lead, ag: Aggregated, o: Outcome, events: seq<Update>)
    requires Reaches(cfg, s, s') && Related(s', o.lead, ag) && s'.head == s.head && s'.poll == o.poll
    requires o.lead.sent == l.sent + events && s'.sent == s.sent + events && ScansAdded(s, s', ag.listeners, o.pollings)
    ensures Simulates(cfg, s, l, ag, o)
  {
    assert Since(l, o.lead) == events;
    assert LeadMatches(s, s', l, ag, o);
  }

  // Nothing was polled
  lemma {:induction false} SimulatedWithout(
    cfg: Config, s: State, s': State, l: SteadyState.Lead, ag: Aggregated, o: Outcome)
    requires Related(s, l, ag) && Reaches(cfg, s, s') && s'.members == s.members && s'.sent == s.sent
    requires s'.head == s.head && s'.headBlock == s.headBlock && s'.group == s.group && Idle(s') && s'.poll == o.poll
    requires o.lead == l.(poll := o.lead.poll) && o.pollings == []
    ensures Simulates(cfg, s, l, ag, o)
  {
    assert forall id :: ScansOf([], id) == [];
    SimulatedBy(cfg, s, s', l, ag, o, []);
  }

  // A page of the lead group, from where its query was sent to its end
  ghost predicate LeadPage(s: State, s1: State, l: SteadyState.Lead, ag: Aggregated, f: Flight) {
    && Related(s, l, ag) && f.members == Ids(ag.listeners) && f.answer == None
    && s1 == s.(flights := s.flights[LeadLoop := f], poll := s1.poll)
  }

  function PollAfter(cfg: Config, s: State, f: Flight): Option<int> {
    if f.steady then Some(if cfg.lightMode then f.mark else f.toBlock + 1) else s.poll
  }

  lemma {:induction false} LeadPageRuns(
    cfg: Config, s: State, s1: State, l: SteadyState.Lead, ag: Aggregated, f: Flight, logs: seq<Log>, enrich: Enricher,
    l': SteadyState.Lead)
    requires LeadPage(s, s1, l, ag, f) && Reaches(cfg, s, s1)
    requires forall k :: 0 <= k < |logs| ==> logs[k].topics != []
    requires FilterLogs(ag, Mark(l.hwm), logs, enrich).Some?
    requires l'.sent == l.sent + FilterLogs(ag, Mark(l.hwm), logs, enrich).value
    requires l'.hwm == MoveForwards(l.hwm, ag.listeners, f.mark)
    requires l'.detected == DetectAll(l.detected, FilterLogs(ag, Mark(l.hwm), logs, enrich).value)
    requires l'.headBlock == if f.steady then Max(l.headBlock, f.mark) else l.headBlock
    ensures Simulates(cfg, s, l, ag, Outcome(l', PollAfter(cfg, s1, f), [Polling(f.fromBlock, f.toBlock, l.hwm, logs)]))
  {
    var events := FilterLogs(ag, Mark(l.hwm), logs, enrich).value;
    FilteredIsSelected(s, l, ag, f, logs, enrich);
    assert Selected(s1, f, logs, events);
    var s2 := PageRuns(cfg, s1, LeadLoop, logs, events);
    ReachesCompose(cfg, s, s1, s2);
    LeadPageMatches(cfg, s, s1, s2, l, ag, f, logs, events, l');
    SimulatedBy(cfg, s, s2, l, ag, Outcome(l', s2.poll, [Polling(f.fromBlock, f.toBlock, l.hwm, logs)]), events);
  }

  lemma {:induction false} LeadPageMatches(
    cfg: Config, s: State, s1: State, s2: State, l: SteadyState.Lead, ag: Aggregated, f: Flight, logs: seq<Log>,
    events: seq<Update>, l': SteadyState.Lead)
    requires LeadPage(s, s1, l, ag, f) && PageDone(cfg, s1, s2, LeadLoop, logs, events)
    requires l'.hwm == MoveForwards(l.hwm, ag.listeners, f.mark) && l'.detected == DetectAll(l.detected, events)
    requires l'.headBlock == if f.steady then Max(l.headBlock, f.mark) else l.headBlock
    ensures Related(s2, l', ag) && ScansAdded(s, s2, ag.listeners, [Polling(f.fromBlock, f.toBlock, l.hwm, logs)])
  {
    RelatedAfterPage(s, s2, l, ag, f.mark, events, l');
    forall i | 0 <= i < |ag.listeners|
      ensures var id := ag.listeners[i].id;
              s2.members[id].scans == s.members[id].scans + ScansOf([Polling(f.fromBlock, f.toBlock, l.hwm, logs)], id)
    {
      var id := ag.listeners[i].id;
      assert id in f.members && AfterPage(s1.members[id], s2.members[id], f, logs);
      assert Mark(l.hwm)(id) == s.members[id].hwm;
    }
  }

  // What the steady step and the cycle have in common
  lemma {:induction false} SteadyStepBegins(
    cfg: Config, s: State, l: SteadyState.Lead, ag: Aggregated, i: Input, p: Poll, logs: seq<Log>, events: seq<Update>)
    requires Related(s, l, ag) && s.poll == Some(l.poll.fromBlock)
    requires Enabled(cfg, s, LeadSteady(i.chainHead, p.fromBlock, SteadyState.Page(cfg, p, i)))
    ensures var toBlock := SteadyState.Page(cfg, p, i);
            var (s1, l') := (P.Apply(cfg, s, LeadSteady(i.chainHead, p.fromBlock, toBlock)),
                             Deliver(cfg, l, ag, i, p, toBlock, logs, events));
            && LeadLoop in s1.flights
            && var f := s1.flights[LeadLoop];
            && LeadPage(s, s1, l, ag, f) && s1.poll == Some(p.fromBlock)
            && f.fromBlock == p.fromBlock && f.toBlock == toBlock && f.steady
            && l'.hwm == MoveForwards(l.hwm, ag.listeners, f.mark) && l'.headBlock == Max(l.headBlock, f.mark)
            && l'.sent == l.sent + events && l'.detected == DetectAll(l.detected, events)
            && PollAfter(cfg, s1, f) == Some(l'.poll.fromBlock)
  {
  }

  // A page of the steady state that has been answered
  lemma {:induction false} SteadyPageRuns(
    cfg: Config, s: State, l: SteadyState.Lead, ag: Aggregated, i: Input, p: Poll, logs: seq<Log>, l': SteadyState.Lead)
    requires Related(s, l, ag) && s.poll == Some(l.poll.fromBlock)
    requires Enabled(cfg, s, LeadSteady(i.chainHead, p.fromBlock, SteadyState.Page(cfg, p, i)))
    requires forall k :: 0 <= k < |logs| ==> logs[k].topics != []
    requires FilterLogs(ag, Mark(l.hwm), logs, i.enrich).Some?
    requires l' == Deliver(cfg, l, ag, i, p, SteadyState.Page(cfg, p, i), logs,
                           FilterLogs(ag, Mark(l.hwm), logs, i.enrich).value)
    ensures Simulates(cfg, s, l, ag, Outcome(l', Some(l'.poll.fromBlock),
                      [Polling(p.fromBlock, SteadyState.Page(cfg, p, i), l.hwm, logs)]))
  {
    var step := LeadSteady(i.chainHead, p.fromBlock, SteadyState.Page(cfg, p, i));
    SteadyStepBegins(cfg, s, l, ag, i, p, logs, FilterLogs(ag, Mark(l.hwm), logs, i.enrich).value);
    ReachesStep(cfg, s, step);
    var s1 := P.Apply(cfg, s, step);
    LeadPageRuns(cfg, s, s1, l, ag, s1.flights[LeadLoop], logs, i.enrich, l');
  }

  // The query of a page of the lead group failed
  lemma {:induction false} LeadPageFails(
    cfg: Config, s: State, s1: State, l: SteadyState.Lead, ag: Aggregated, f: Flight, p: Poll)
    requires LeadPage(s, s1, l, ag, f) && Reaches(cfg, s, s1)
    ensures Simulates(cfg, s, l, ag, Outcome(l.(poll := p), s1.poll, []))
  {
    var s2 := P.Apply(cfg, s1, Abort(LeadLoop));
    ReachesStep(cfg, s1, Abort(LeadLoop));
    ReachesCompose(cfg, s, s1, s2);
    SimulatedWithout(cfg, s, s2, l, ag, Outcome(l.(poll := p), s1.poll, []));
  }

  lemma {:induction false} SteadyPageFails(
    cfg: Config, s: State, l: SteadyState.Lead, ag: Aggregated, i: Input, p: Poll)
    requires Related(s, l, ag) && s.poll == Some(l.poll.fromBlock)
    requires Enabled(cfg, s, LeadSteady(i.chainHead, p.fromBlock, SteadyState.Page(cfg, p, i)))
    ensures Simulates(cfg, s, l, ag, Outcome(l.(poll := p), Some(p.fromBlock), []))
  {
    var step := LeadSteady(i.chainHead, p.fromBlock, SteadyState.Page(cfg, p, i));
    SteadyStepBegins(cfg, s, l, ag, i, p, [], []);
    ReachesStep(cfg, s, step);
    var s1 := P.Apply(cfg, s, step);
    LeadPageFails(cfg, s, s1, l, ag, s1.flights[LeadLoop], p);
  }

  lemma {:induction false} SteadyRewinds(cfg: Config, s: State, l: SteadyState.Lead, ag: Aggregated, i: Input, p: Poll)
    requires Related(s, l, ag) && Enabled(cfg, s, Rewind(i.chainHead, p.fromBlock))
    ensures Simulates(cfg, s, l, ag, Outcome(l.(poll := p), Some(p.fromBlock), []))
  {
    var s' := P.Apply(cfg, s, Rewind(i.chainHead, p.fromBlock));
    ReachesStep(cfg, s, Rewind(i.chainHead, p.fromBlock));
    SimulatedWithout(cfg, s, s', l, ag, Outcome(l.(poll := p), Some(p.fromBlock), []));
  }

  lemma {:induction false} StaysAsItIs(cfg: Config, s: State, l: SteadyState.Lead, ag: Aggregated)
    requires Related(s, l, ag)
    ensures Simulates(cfg, s, l, ag, Outcome(l, s.poll, []))
  {
    ReachesNow(cfg, s);
    SimulatedWithout(cfg, s, s, l, ag, Outcome(l, s.poll, []));
  }

  // The outcome of a cycle
  function OfCycle(cfg: Config, l: SteadyState.Lead, ag: Aggregated, i: Input): Outcome
    requires CanReply(i)
  {
    var l' := Cycle(cfg, l, ag, i).0;
    Outcome(l', Some(l'.poll.fromBlock), CyclePollings(cfg, l, ag, i))
  }

  /** Every cycle of the steady-state loop, in both modes and whatever becomes of it, is a run of the protocol from a
      related state to a related state, at the same poll position, that polls the same page with the same reply, and
      pushes the same events in the same order. */
  lemma {:induction false} CycleIsRun(cfg: Config, s: State, l: SteadyState.Lead, ag: Aggregated, i: Input)
    requires Related(s, l, ag) && s.poll == Some(l.poll.fromBlock) && CanReply(i)
    requires cfg.lightMode || (i.chainHead <= s.head && H.RecordsOk(l.poll))
    ensures Simulates(cfg, s, l, ag, OfCycle(cfg, l, ag, i))
  {
    if ag.signatureSet == [] || TooFarBehind(cfg, l.poll.fromBlock, i.chainHead) {
      StaysAsItIs(cfg, s, l, ag);
    } else {
      if !cfg.lightMode {
        H.RewindRecordsOk(l.poll, i.snapshot, 0);
      }
      ScanIsRun(cfg, s, l, ag, i, Rewound(cfg, l.poll, i));
    }
  }

  lemma {:induction false} ScanIsRun(cfg: Config, s: State, l: SteadyState.Lead, ag: Aggregated, i: Input, p: Poll)
    requires Related(s, l, ag) && s.poll == Some(l.poll.fromBlock) && CanReply(i)
    requires Positioned(cfg, s, i.chainHead)
    requires if cfg.lightMode then p == l.poll else p.fromBlock <= l.poll.fromBlock
    ensures var (l', status) := SteadyState.Scan(cfg, l, ag, i, p);
            Simulates(cfg, s, l, ag, Outcome(l', Some(l'.poll.fromBlock),
              if status.Polled? then [Polling(p.fromBlock, SteadyState.Page(cfg, p, i), l.hwm, NewLogs(cfg, p, i))]
              else []))
  {
    var toBlock := SteadyState.Page(cfg, p, i);
    if toBlock < p.fromBlock {
      if cfg.lightMode {
        StaysAsItIs(cfg, s, l, ag);
      } else {
        SteadyRewinds(cfg, s, l, ag, i, p);
      }
    } else if i.reply.None? || FilterLogs(ag, Mark(l.hwm), NewLogs(cfg, p, i), i.enrich).None? {
      SteadyPageFails(cfg, s, l, ag, i, p);
    } else {
      SteadyPageRuns(cfg, s, l, ag, i, p, NewLogs(cfg, p, i), SteadyState.Scan(cfg, l, ag, i, p).0);
    }
  }

  lemma {:induction false} AddedCompose(
    s: State, s1: State, s2: State, listeners: seq<Listener>, a: seq<Polling>, b: seq<Polling>)
    requires ScansAdded(s, s1, listeners, a) && ScansAdded(s1, s2, listeners, b)
    ensures ScansAdded(s, s2, listeners, a + b)
  {
    forall i | 0 <= i < |listeners|
      ensures s2.members[listeners[i].id].scans == s.members[listeners[i].id].scans + ScansOf(a + b, listeners[i].id)
    {
      ScansAppend(a, b, listeners[i].id);
    }
  }

  lemma {:induction false} SimulationsCompose(
    cfg: Config, s: State, s1: State, l: SteadyState.Lead, ag: Aggregated, o1: Outcome, o2: Outcome)
    requires Reaches(cfg, s, s1) && LeadMatches(s, s1, l, ag, o1) && Simulates(cfg, s1, o1.lead, ag, o2)
    ensures Simulates(cfg, s, l, ag, o2.(pollings := o1.pollings + o2.pollings))
  {
    var s2 :| Reaches(cfg, s1, s2) && LeadMatches(s1, s2, o1.lead, ag, o2);
    ReachesCompose(cfg, s, s1, s2);
    AddedCompose(s, s1, s2, ag.listeners, o1.pollings, o2.pollings);
    SimulatedBy(cfg, s, s2, l, ag, o2.(pollings := o1.pollings + o2.pollings),
                Since(l, o1.lead) + Since(o1.lead, o2.lead));
  }

  // When the position is established
  lemma {:induction false} ResetIsStep(cfg: Config, s: State, l: SteadyState.Lead, ag: Aggregated)
    requires Related(s, l, ag) && s.poll == None
    ensures var l' := Restarted(l, ag.listeners);
            Simulates(cfg, s, l, ag, Outcome(l', Some(l'.poll.fromBlock), []))
  {
    var step, l' := ResetPosition(LowestMark(l.hwm, ag.listeners)), Restarted(l, ag.listeners);
    LowestMarkIsLowest(l.hwm, ag.listeners);
    assert ag.listeners[0].id in Ids(ag.listeners);
    ReachesStep(cfg, s, step);
    SimulatedWithout(cfg, s, P.Apply(cfg, s, step), l, ag, Outcome(l', Some(l'.poll.fromBlock), []));
  }

  // The heads are heads that were seen, and the snapshots are linked
  ghost predicate CanSee(cfg: Config, head: nat, inputs: seq<Input>) {
    forall k :: 0 <= k < |inputs| ==>
      CanReply(inputs[k]) && (cfg.lightMode || (inputs[k].chainHead <= head && Linked(inputs[k].snapshot)))
  }

  // The outcome of a run
  function OfRun(cfg: Config, l: SteadyState.Lead, ag: Aggregated, inputs: seq<Input>): Outcome
    requires forall k :: 0 <= k < |inputs| ==> CanReply(inputs[k])
  {
    var l' := SteadyState.Run(cfg, l, ag, inputs);
    Outcome(l', Some(l'.poll.fromBlock), RunPollings(cfg, l, ag, inputs))
  }

  /** So is every run of the loop. */
  lemma {:induction false} SteadyRunIsRun(
    cfg: Config, s: State, l: SteadyState.Lead, ag: Aggregated, inputs: seq<Input>)
    requires Related(s, l, ag) && s.poll == Some(l.poll.fromBlock) && CanSee(cfg, s.head, inputs)
    requires cfg.lightMode || H.RecordsOk(l.poll)
    ensures Simulates(cfg, s, l, ag, OfRun(cfg, l, ag, inputs))
    ensures cfg.lightMode || H.RecordsOk(SteadyState.Run(cfg, l, ag, inputs).poll)
    decreases |inputs|
  {
    if inputs == [] {
      StaysAsItIs(cfg, s, l, ag);
    } else {
      var front, last := inputs[..|inputs| - 1], inputs[|inputs| - 1];
      SteadyRunIsRun(cfg, s, l, ag, front);
      var o1 := OfRun(cfg, l, ag, front);
      var s1 :| Reaches(cfg, s, s1) && LeadMatches(s, s1, l, ag, o1);
      CycleIsRun(cfg, s1, o1.lead, ag, last);
      SimulationsCompose(cfg, s, s1, l, ag, o1, OfCycle(cfg, o1.lead, ag, last));
      if !cfg.lightMode {
        H.CycleRecordsOk(cfg, o1.lead, ag, last);
      }
    }
  }

  // ----- Catchup of the lead group -----

  /** Every page of the lead group's catchup, whatever becomes of it, is a run of the protocol. */
  lemma {:induction false} CatchupPageIsRun(cfg: Config, s: State, l: SteadyState.Lead, ag: Aggregated, i: Input)
    requires Related(s, l, ag) && s.poll == None && CanReply(i) && cfg.catchupThreshold >= 1 && i.pageSize >= 1
    requires cfg.lightMode || i.chainHead <= s.head
    ensures Simulates(cfg, s, l, ag,
                      Outcome(E.CatchupPage(cfg, l, ag, i).0, None, E.CatchupPagePollings(cfg, l, ag, i)))
  {
    var (l', status) := E.CatchupPage(cfg, l, ag, i);
    if status.UpToDate? {
      StaysAsItIs(cfg, s, l, ag);
    } else {
      var s1, f := CatchupBegins(cfg, s, l, ag, i);
      if status.Retrying? {
        LeadPageFails(cfg, s, s1, l, ag, f, l.poll);
      } else {
        LeadPageRuns(cfg, s, s1, l, ag, f, i.reply.value, i.enrich, l');
      }
    }
  }

  lemma {:induction false} CatchupBegins(cfg: Config, s: State, l: SteadyState.Lead, ag: Aggregated, i: Input)
    returns (s1: State, f: Flight)
    requires Related(s, l, ag) && s.poll == None && CanReply(i) && cfg.catchupThreshold >= 1 && i.pageSize >= 1
    requires (cfg.lightMode || i.chainHead <= s.head) && !E.CatchupPage(cfg, l, ag, i).1.UpToDate?
    ensures Reaches(cfg, s, s1) && LeadPage(s, s1, l, ag, f) && s1.poll == None && !f.steady
    ensures f.fromBlock == E.CatchupRange(cfg, l, ag, i).fromBlock && f.toBlock == E.CatchupRange(cfg, l, ag, i).toBlock
    ensures f.mark == f.toBlock + 1
  {
    var page := E.CatchupRange(cfg, l, ag, i);
    var step := LeadCatchup(i.chainHead, page.fromBlock, page.toBlock);
    LowestMarkIsLowest(l.hwm, ag.listeners);
    assert ag.listeners[0].id in Ids(ag.listeners);
    ReachesStep(cfg, s, step);
    s1 := P.Apply(cfg, s, step);
    f := s1.flights[LeadLoop];
  }

  // The outcome of a catchup
  function OfCatchup(cfg: Config, l: SteadyState.Lead, ag: Aggregated, inputs: seq<Input>): Outcome
    requires forall k :: 0 <= k < |inputs| ==> CanReply(inputs[k])
  {
    Outcome(E.CatchupRun(cfg, l, ag, inputs).0, None, E.CatchupPollings(cfg, l, ag, inputs))
  }

  // The heads are heads that were seen
  ghost predicate CanCatchUp(cfg: Config, head: nat, inputs: seq<Input>) {
    && cfg.catchupThreshold >= 1
    && forall k :: 0 <= k < |inputs| ==>
         CanReply(inputs[k]) && inputs[k].pageSize >= 1 && (cfg.lightMode || inputs[k].chainHead <= head)
  }

  /** So is the whole catchup. */
  lemma {:induction false} CatchupRunIsRun(
    cfg: Config, s: State, l: SteadyState.Lead, ag: Aggregated, inputs: seq<Input>)
    requires Related(s, l, ag) && s.poll == None && CanCatchUp(cfg, s.head, inputs)
    ensures Simulates(cfg, s, l, ag, OfCatchup(cfg, l, ag, inputs))
    decreases |inputs|
  {
    if inputs == [] || E.CatchupPage(cfg, l, ag, inputs[0]).1.UpToDate? {
      StaysAsItIs(cfg, s, l, ag);
    } else {
      CatchupPageIsRun(cfg, s, l, ag, inputs[0]);
      var l1 := E.CatchupPage(cfg, l, ag, inputs[0]).0;
      var o1 := Outcome(l1, None, E.CatchupPagePollings(cfg, l, ag, inputs[0]));
      var s1 :| Reaches(cfg, s, s1) && LeadMatches(s, s1, l, ag, o1);
      CatchupRunIsRun(cfg, s1, l1, ag, inputs[1..]);
      SimulationsCompose(cfg, s, s1, l, ag, o1, OfCatchup(cfg, l1, ag, inputs[1..]));
    }
  }

  // ----- Catchup of one listener -----

  ghost predicate OwnRelated(s: State, id: Id, o: E.Own, al: Aggregated) {
    && id in s.members && s.members[id].config.id == id && IsIndex(al, [s.members[id].config])
    && OwnLoop(id) !in s.flights && s.members[id].hwm == o.hwm && s.members[id].catchup == o.catchup
    && s.members[id].lastDetected == o.lastDetected
  }

  ghost predicate OwnMatches(
    s: State, s': State, id: Id, o: E.Own, al: Aggregated, o': E.Own, pollings: seq<Polling>)
  {
    && o.sent <= o'.sent && OwnRelated(s', id, o', al) && s'.headBlock == s.headBlock
    && s'.sent == s.sent + o'.sent[|o.sent|..]
    && id in s.members && s'.members[id].config == s.members[id].config
    && s'.members[id].scans == s.members[id].scans + ScansOf(pollings, id)
  }

  ghost predicate OwnSimulates(
    cfg: Config, s: State, id: Id, o: E.Own, al: Aggregated, o': E.Own, pollings: seq<Polling>)
  {
    exists s' :: Reaches(cfg, s, s') && OwnMatches(s, s', id, o, al, o', pollings)
  }

  lemma {:induction false} OwnSimulatedBy(
    cfg: Config, s: State, s': State, id: Id, o: E.Own, al: Aggregated, o': E.Own, pollings: seq<Polling>,
    events: seq<Update>)
    requires Reaches(cfg, s, s') && OwnRelated(s', id, o', al) && s'.headBlock == s.headBlock
    requires o'.sent == o.sent + events && s'.sent == s.sent + events
    requires id in s.members && s'.members[id].config == s.members[id].config
    requires s'.members[id].scans == s.members[id].scans + ScansOf(pollings, id)
    ensures OwnSimulates(cfg, s, id, o, al, o', pollings)
  {
    assert o'.sent[|o.sent|..] == events;
    assert OwnMatches(s, s', id, o, al, o', pollings);
  }

  /** Every iteration of a listener's own catchup is a run of the protocol, and so is joining the lead group. */
  lemma {:induction false} OwnPageIsRun(cfg: Config, s: State, id: Id, o: E.Own, al: Aggregated, m: E.Moment)
    requires OwnRelated(s, id, o, al) && E.CanReplyOwn(m) && m.ceiling <= s.headBlock
    ensures OwnSimulates(cfg, s, id, o, al, E.OwnPage(al, o, m, cfg.catchupThreshold).0,
                         E.OwnPagePollings(al, id, o, m, cfg.catchupThreshold))
  {
    var (o', status) := E.OwnPage(al, o, m, cfg.catchupThreshold);
    assert ScansOf([], id) == [];
    if status.UpToDate? {
      ReachesStep(cfg, s, Join(id));
      OwnSimulatedBy(cfg, s, P.Apply(cfg, s, Join(id)), id, o, al, o', [], []);
    } else if status.Polled? {
      OwnPageRuns(cfg, s, id, o, al, m);
    } else {
      ReachesNow(cfg, s);
      OwnSimulatedBy(cfg, s, s, id, o, al, o', [], []);
    }
  }

  lemma {:induction false} OwnPageRuns(cfg: Config, s: State, id: Id, o: E.Own, al: Aggregated, m: E.Moment)
    requires OwnRelated(s, id, o, al) && E.CanReplyOwn(m) && m.ceiling <= s.headBlock
    requires E.OwnPage(al, o, m, cfg.catchupThreshold).1.Polled?
    ensures OwnSimulates(cfg, s, id, o, al, E.OwnPage(al, o, m, cfg.catchupThreshold).0,
                         E.OwnPagePollings(al, id, o, m, cfg.catchupThreshold))
  {
    var page, logs := E.OwnRange(o, m), m.reply.value;
    var o', events := OwnPolled(id, o, al, m, cfg.catchupThreshold);
    var s1 := OwnBegins(cfg, s, id, o, al, m);
    OwnReceives(cfg, s, s1, id, o, al, page.fromBlock, page.toBlock, logs, m.enrich, events);
    var s2 := PageRuns(cfg, s1, OwnLoop(id), logs, events);
    ReachesCompose(cfg, s, s1, s2);
    OwnPageEnds(cfg, s, s1, s2, id, o, al, page.fromBlock, page.toBlock, logs, events, o');
  }

  // The outcome of a page that was polled
  lemma {:induction false} OwnPolled(id: Id, o: E.Own, al: Aggregated, m: E.Moment, threshold: int)
    returns (o': E.Own, events: seq<Update>)
    requires E.CanReplyOwn(m) && E.OwnPage(al, o, m, threshold).1.Polled?
    ensures FilterLogs(al, _ => o.hwm, m.reply.value, m.enrich) == Some(events)
    ensures o' == E.OwnPage(al, o, m, threshold).0
    ensures var page := E.OwnRange(o, m);
            && o' == E.Own(Max(o.hwm, page.toBlock + 1), MarkAll(o.lastDetected, events), o.catchup, o.sent + events)
            && E.OwnPagePollings(al, id, o, m, threshold)
               == [Polling(page.fromBlock, page.toBlock, map[id := o.hwm], m.reply.value)]
  {
    o', events := E.OwnPage(al, o, m, threshold).0, FilterLogs(al, _ => o.hwm, m.reply.value, m.enrich).value;
  }

  lemma {:induction false} OwnReceives(
    cfg: Config, s: State, s1: State, id: Id, o: E.Own, al: Aggregated, fromBlock: int, toBlock: int, logs: seq<Log>,
    enrich: Enricher, events: seq<Update>)
    requires OwnRelated(s, id, o, al) && forall k :: 0 <= k < |logs| ==> logs[k].topics != []
    requires s1 == s.(flights := s.flights[OwnLoop(id) := Flight({id}, fromBlock, toBlock, toBlock + 1, false, None)])
    requires FilterLogs(al, _ => o.hwm, logs, enrich) == Some(events)
    ensures Enabled(cfg, s1, Receive(OwnLoop(id), logs, events))
    ensures s1.flights[OwnLoop(id)].members <= s1.members.Keys && forall u :: u in events ==> u.listener == id
  {
    OwnFilteredIsSelected(s1, id, o.hwm, al, s1.flights[OwnLoop(id)], logs, enrich);
  }

  lemma {:induction false} OwnPageEnds(
    cfg: Config, s: State, s1: State, s2: State, id: Id, o: E.Own, al: Aggregated, fromBlock: int, toBlock: int,
    logs: seq<Log>, events: seq<Update>, o': E.Own)
    requires OwnRelated(s, id, o, al) && Reaches(cfg, s, s2)
    requires s1 == s.(flights := s.flights[OwnLoop(id) := Flight({id}, fromBlock, toBlock, toBlock + 1, false, None)])
    requires PageDone(cfg, s1, s2, OwnLoop(id), logs, events) && forall u :: u in events ==> u.listener == id
    requires o' == E.Own(Max(o.hwm, toBlock + 1), MarkAll(o.lastDetected, events), o.catchup, o.sent + events)
    ensures OwnSimulates(cfg, s, id, o, al, o', [Polling(fromBlock, toBlock, map[id := o.hwm], logs)])
  {
    MarkAllFor(o.lastDetected, events, id);
    OwnPageMember(cfg, s1, s2, id, fromBlock, toBlock, logs, events);
    OwnSimulatedBy(cfg, s, s2, id, o, al, o', [Polling(fromBlock, toBlock, map[id := o.hwm], logs)], events);
  }

  lemma {:induction false} OwnPageMember(
    cfg: Config, s: State, s': State, id: Id, fromBlock: int, toBlock: int, logs: seq<Log>, events: seq<Update>)
    requires id in s.members && OwnLoop(id) in s.flights && PageDone(cfg, s, s', OwnLoop(id), logs, events)
    requires s.flights[OwnLoop(id)] == Flight({id}, fromBlock, toBlock, toBlock + 1, false, None)
    ensures var (m, m') := (s.members[id], s'.members[id]);
            && SameButMark(m, m') && m'.hwm == Max(m.hwm, toBlock + 1)
            && m'.lastDetected == MarkFor(m.lastDetected, events, id)
            && m'.scans == m.scans + ScansOf([Polling(fromBlock, toBlock, map[id := m.hwm], logs)], id)
  {
    assert AfterPage(s.members[id], s'.members[id], s.flights[OwnLoop(id)], logs);
    OnePageScans(fromBlock, toBlock, map[id := s.members[id].hwm], logs, id);
  }

  lemma {:induction false} OwnBegins(cfg: Config, s: State, id: Id, o: E.Own, al: Aggregated, m: E.Moment)
    returns (s1: State)
    requires OwnRelated(s, id, o, al) && E.CanReplyOwn(m) && m.ceiling <= s.headBlock
    requires E.OwnPage(al, o, m, cfg.catchupThreshold).1.Polled?
    ensures var page := E.OwnRange(o, m);
            var f := Flight({id}, page.fromBlock, page.toBlock, page.toBlock + 1, false, None);
            Reaches(cfg, s, s1) && s1 == s.(flights := s.flights[OwnLoop(id) := f])
  {
    var page := E.OwnRange(o, m);
    s1 := P.Apply(cfg, s, OwnCatchup(id, page.fromBlock, page.toBlock));
    ReachesStep(cfg, s, OwnCatchup(id, page.fromBlock, page.toBlock));
  }

  lemma {:induction false} OwnFilteredIsSelected(
    s: State, id: Id, hwm: int, al: Aggregated, f: Flight, logs: seq<Log>, enrich: Enricher)
    requires id in s.members && s.members[id].config.id == id && IsIndex(al, [s.members[id].config])
    requires s.members[id].hwm == hwm && f.members == {id}
    requires forall i :: 0 <= i < |logs| ==> logs[i].topics != []
    requires FilterLogs(al, _ => hwm, logs, enrich).Some?
    ensures Selected(s, f, logs, FilterLogs(al, _ => hwm, logs, enrich).value)
  {
    var listeners := [s.members[id].config];
    IndexRefinesBruteForce(al, listeners, _ => hwm, logs, enrich);
    forall u: Update
      ensures u in BruteForce(listeners, _ => hwm, logs) <==>
        && u.listener in f.members && u.listener in s.members && u.log in logs
        && Wants(s.members[u.listener].config, s.members[u.listener].hwm, u.log)
    {
      BruteForceMember(listeners, _ => hwm, logs, u);
      assert listeners[0].id == id;
    }
  }

  // The lead group's positions that the loop sees are positions it has passed
  ghost predicate CanSeeOwn(headBlock: int, moments: seq<E.Moment>) {
    forall k :: 0 <= k < |moments| ==> E.CanReplyOwn(moments[k]) && moments[k].ceiling <= headBlock
  }

  /** So is the whole loop. */
  lemma {:induction false} OwnRunIsRun(
    cfg: Config, s: State, id: Id, o: E.Own, al: Aggregated, moments: seq<E.Moment>)
    requires OwnRelated(s, id, o, al) && CanSeeOwn(s.headBlock, moments)
    ensures OwnSimulates(cfg, s, id, o, al, E.OwnRun(al, o, moments, cfg.catchupThreshold).0,
                         E.OwnPollings(al, id, o, moments, cfg.catchupThreshold))
    decreases |moments|
  {
    if moments == [] {
      ReachesNow(cfg, s);
      assert ScansOf([], id) == [];
      OwnSimulatedBy(cfg, s, s, id, o, al, o, [], []);
    } else {
      OwnPageIsRun(cfg, s, id, o, al, moments[0]);
      var (o1, status) := E.OwnPage(al, o, moments[0], cfg.catchupThreshold);
      if !status.Stopped? && !status.UpToDate? {
        var a := E.OwnPagePollings(al, id, o, moments[0], cfg.catchupThreshold);
        var s1 :| Reaches(cfg, s, s1) && OwnMatches(s, s1, id, o, al, o1, a);
        OwnRunIsRun(cfg, s1, id, o1, al, moments[1..]);
        OwnSimulationsCompose(cfg, s, s1, id, o, o1, al, E.OwnRun(al, o1, moments[1..], cfg.catchupThreshold).0, a,
                              E.OwnPollings(al, id, o1, moments[1..], cfg.catchupThreshold));
      }
    }
  }

  lemma {:induction false} OwnSimulationsCompose(
    cfg: Config, s: State, s1: State, id: Id, o: E.Own, o1: E.Own, al: Aggregated, o2: E.Own, a: seq<Polling>,
    b: seq<Polling>)
    requires Reaches(cfg, s, s1) && OwnMatches(s, s1, id, o, al, o1, a) && OwnSimulates(cfg, s1, id, o1, al, o2, b)
    ensures OwnSimulates(cfg, s, id, o, al, o2, a + b)
  {
    var s2 :| Reaches(cfg, s1, s2) && OwnMatches(s1, s2, id, o1, al, o2, b);
    ReachesCompose(cfg, s, s1, s2);
    OwnMatchesCompose(s, s1, s2, id, o, o1, al, o2, a, b);
  }

  lemma {:induction false} OwnMatchesCompose(
    s: State, s1: State, s2: State, id: Id, o: E.Own, o1: E.Own, al: Aggregated, o2: E.Own, a: seq<Polling>,
    b: seq<Polling>)
    requires OwnMatches(s, s1, id, o, al, o1, a) && OwnMatches(s1, s2, id, o1, al, o2, b)
    ensures OwnMatches(s, s2, id, o, al, o2, a + b)
  {
    ScansAppend(a, b, id);
    assert o2.sent[|o.sent|..] == o1.sent[|o.sent|..] + o2.sent[|o1.sent|..];
  }
}

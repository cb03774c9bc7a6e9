/**
 The scan positions of an event stream, with its loops interleaved: the lead group (catchup and client-side
 steady state) and the catchup of each listener on its own share the position of the lead group.

 A loop iteration is many steps: it begins a query, receives the answer, marks and pushes each event, moves the mark
 of each listener, and finishes. Any other steps can come in between. What a loop read before it began, such as
 the head or the marks, can be out of date by then.
 */
module ScanProtocol {
  import opened Blocks
  import opened AggregatedListener
  import opened EventListener
  import GetLogsPolling
  import SteadyState

  type Config = SteadyState.Config

  // A range query that succeeded, the mark its logs were filtered at, and what it returned
  datatype Scan = Scan(fromBlock: int, toBlock: int, mark: int, returned: seq<Log>)

  datatype Member = Member(
    config: Listener, start: int, hwm: int, catchup: bool, removed: bool, lastDetected: Option<Checkpoint>,
    scans: seq<Scan>)

  datatype Loop = LeadLoop | OwnLoop(id: Id)

  // The answer to a query: the marks its logs were filtered at, the events still to be pushed, whether the first of
  // them is marked as detected, and the listeners whose mark was moved
  datatype Answer = Answer(marks: map<Id, int>, returned: seq<Log>, events: seq<Update>, detected: bool, moved: set<Id>)

  // The page a loop is at: for which listeners, its range, and the mark it sets in the end
  datatype Flight = Flight(
    members: set<Id>, fromBlock: int, toBlock: int, mark: int, steady: bool, answer: Option<Answer>)

  // The listeners of the lead group, as of a version
  datatype Group = Group(members: set<Id>, version: nat)

  datatype State = State(
    head: nat, headBlock: int, members: map<Id, Member>, version: nat, group: Option<Group>, poll: Option<int>,
    flights: map<Loop, Flight>, sent: seq<Update>)

  function Stable(cfg: Config, head: nat): int {
    GetLogsPolling.StableHead(head, cfg.checkpointBlockGap)
  }

  function Lead(s: State): set<Id> {
    set id | id in s.members && !s.members[id].catchup && !s.members[id].removed
  }

  // ----- The steps -----

  datatype Step =
    | SetHead(head: nat)
    | Add(id: Id, config: Listener, start: nat)
    | Establish(seen: nat, highest: int)
    | Join(id: Id)
    | Remove(id: Id)
    | Build
    | Switch
    | ResetPosition(lowest: int)
    | Rewind(seen: nat, fromBlock: int)
    | LeadCatchup(seen: nat, lowest: int, toBlock: int)
    | LeadSteady(seen: nat, fromBlock: int, toBlock: int)
    | OwnCatchup(id: Id, fromBlock: int, toBlock: int)
    | Receive(loop: Loop, returned: seq<Log>, events: seq<Update>)
    | Detect(loop: Loop)
    | Push(loop: Loop)
    | Move(loop: Loop, id: Id)
    | Finish(loop: Loop)
    | Abort(loop: Loop)

  // A head that a loop read at some time before. In light mode the head can fall.
  predicate Seen(cfg: Config, s: State, seen: nat) {
    cfg.lightMode || seen <= s.head
  }

  // The lowest of the marks, each read at some time before. Marks only rise.
  ghost predicate WasLowest(s: State, ids: set<Id>, lowest: int) {
    ids != {} && lowest >= 0 && forall id :: id in ids && id in s.members ==> lowest <= s.members[id].hwm
  }

  ghost predicate HighestOf(s: State, highest: int) {
    && (highest == -1 || exists id :: id in s.members && s.members[id].hwm == highest)
    && (forall id :: id in s.members ==> s.members[id].hwm <= highest)
  }

  // The lead group is between two pages
  predicate Idle(s: State) {
    LeadLoop !in s.flights
  }

  predicate Positioned(cfg: Config, s: State, seen: nat) {
    && Idle(s) && s.group.Some? && s.poll.Some? && Seen(cfg, s, seen)
    && !SteadyState.TooFarBehind(cfg, s.poll.value, seen)
  }

  // The events of an answer, in any order: what each listener wants and is not behind its mark
  ghost predicate Selected(s: State, f: Flight, returned: seq<Log>, events: seq<Update>) {
    forall u :: u in events <==>
      && u.listener in f.members && u.listener in s.members && u.log in returned
      && Wants(s.members[u.listener].config, s.members[u.listener].hwm, u.log)
  }

  predicate Answered(s: State, loop: Loop) {
    loop in s.flights && s.flights[loop].answer.Some?
  }

  ghost predicate Enabled(cfg: Config, s: State, step: Step) {
    match step
    case SetHead(head) => cfg.lightMode || head >= s.head
    case Add(id, config, start) => id !in s.members && config.id == id
    case Establish(seen, highest) => s.headBlock == -1 && Seen(cfg, s, seen) && HighestOf(s, highest)
    case Join(id) => id in s.members
    case Remove(id) => id in s.members
    case Build => Idle(s)
    case Switch => Idle(s)
    case ResetPosition(lowest) =>
      Idle(s) && s.group.Some? && s.poll.None? && WasLowest(s, s.group.value.members, lowest)
    case Rewind(seen, fromBlock) => Positioned(cfg, s, seen) && !cfg.lightMode && fromBlock <= s.poll.value
    case LeadCatchup(seen, lowest, toBlock) =>
      && Idle(s) && s.group.Some? && s.poll.None? && Seen(cfg, s, seen) && WasLowest(s, s.group.value.members, lowest)
      && Stable(cfg, seen) - lowest >= cfg.catchupThreshold && lowest <= toBlock <= Stable(cfg, seen)
    case LeadSteady(seen, fromBlock, toBlock) =>
      && Positioned(cfg, s, seen)
      && (if cfg.lightMode then fromBlock == s.poll.value else fromBlock <= s.poll.value)
      && fromBlock <= toBlock <= seen
    case OwnCatchup(id, fromBlock, toBlock) =>
      && OwnLoop(id) !in s.flights && id in s.members && fromBlock <= s.members[id].hwm
      && s.headBlock >= 0 && fromBlock <= toBlock <= s.headBlock - 1
    case Receive(loop, returned, events) =>
      loop in s.flights && s.flights[loop].answer.None? && Selected(s, s.flights[loop], returned, events)
    case Detect(loop) =>
      && Answered(s, loop)
      && var a := s.flights[loop].answer.value; a.events != [] && !a.detected && a.events[0].listener in s.members
    case Push(loop) =>
      && Answered(s, loop)
      && var a := s.flights[loop].answer.value; a.events != [] && a.detected
    case Move(loop, id) =>
      && Answered(s, loop) && id in s.members
      && var a := s.flights[loop].answer.value; a.events == [] && id in a.marks && id !in a.moved
    case Finish(loop) =>
      && Answered(s, loop)
      && var a := s.flights[loop].answer.value; a.events == [] && a.moved == s.flights[loop].members
    case Abort(loop) => loop in s.flights && s.flights[loop].answer.None?
  }

  function WithAnswer(s: State, loop: Loop, a: Answer): State
    requires loop in s.flights
  {
    s.(flights := s.flights[loop := s.flights[loop].(answer := Some(a))])
  }

  function Begin(s: State, loop: Loop, members: set<Id>, fromBlock: int, toBlock: int, mark: int, steady: bool): State {
    s.(flights := s.flights[loop := Flight(members, fromBlock, toBlock, mark, steady, None)])
  }

  function ApplyLocal(cfg: Config, s: State, step: Step): State
    requires Enabled(cfg, s, step)
  {
    match step
    case SetHead(head) => s.(head := head)
    case Add(id, config, start) =>
      s.(members := s.members[id := Member(config, start, start, true, false, None, [])])
    case Establish(seen, highest) =>
      s.(headBlock := if highest < 0 then Stable(cfg, seen) else Min(highest, Stable(cfg, seen)))
    case Join(id) => s.(members := s.members[id := s.members[id].(catchup := false)], version := s.version + 1)
    case Remove(id) => s.(members := s.members[id := s.members[id].(removed := true)], version := s.version + 1)
    case Build =>
      if s.group.Some? && s.group.value.version == s.version then s
      else s.(group := Some(Group(Lead(s), s.version)), poll := None)
    case Switch => s.(group := None, poll := None)
    case ResetPosition(lowest) => s.(poll := Some(lowest))
    case Rewind(_, fromBlock) => s.(poll := Some(fromBlock))
    case LeadCatchup(_, lowest, toBlock) =>
      Begin(s, LeadLoop, s.group.value.members, lowest, toBlock, toBlock + 1, false)
    case LeadSteady(seen, fromBlock, toBlock) =>
      var mark := SteadyState.HwmBlock(cfg, Stable(cfg, seen), fromBlock, toBlock);
      Begin(s, LeadLoop, s.group.value.members, fromBlock, toBlock, mark, true).(poll := Some(fromBlock))
    case OwnCatchup(id, fromBlock, toBlock) => Begin(s, OwnLoop(id), {id}, fromBlock, toBlock, toBlock + 1, false)
    case _ => s
  }

  function ScanOf(f: Flight, a: Answer, id: Id): Scan
    requires id in a.marks
  {
    Scan(f.fromBlock, f.toBlock, a.marks[id], a.returned)
  }

  function ApplyPage(cfg: Config, s: State, step: Step): State
    requires Enabled(cfg, s, step)
  {
    match step
    case Receive(loop, returned, events) =>
      var marks := map id | id in s.flights[loop].members && id in s.members :: s.members[id].hwm;
      WithAnswer(s, loop, Answer(marks, returned, events, false, {}))
    case Detect(loop) =>
      var a := s.flights[loop].answer.value;
      var m := s.members[a.events[0].listener];
      var m' := m.(lastDetected := Marked(m.lastDetected, CheckpointOf(a.events[0].log)));
      WithAnswer(s, loop, a.(detected := true)).(members := s.members[a.events[0].listener := m'])
    case Push(loop) =>
      var a := s.flights[loop].answer.value;
      WithAnswer(s, loop, a.(events := a.events[1..], detected := false)).(sent := s.sent + [a.events[0]])
    case Move(loop, id) =>
      var f, a, m := s.flights[loop], s.flights[loop].answer.value, s.members[id];
      WithAnswer(s, loop, a.(moved := a.moved + {id}))
      .(members := s.members[id := m.(hwm := Max(m.hwm, f.mark), scans := m.scans + [ScanOf(f, a, id)])])
    case Finish(loop) =>
      var f := s.flights[loop];
      var s1 := s.(flights := s.flights - {loop});
      if f.steady then
        s1.(headBlock := Max(s.headBlock, f.mark), poll := Some(if cfg.lightMode then f.mark else f.toBlock + 1))
      else s1
    case Abort(loop) => s.(flights := s.flights - {loop})
    case _ => s
  }

  predicate OfPage(step: Step) {
    step.Receive? || step.Detect? || step.Push? || step.Move? || step.Finish? || step.Abort?
  }

  function Apply(cfg: Config, s: State, step: Step): State
    requires Enabled(cfg, s, step)
  {
    if OfPage(step) then ApplyPage(cfg, s, step) else ApplyLocal(cfg, s, step)
  }

  function Initial(head: nat): State {
    State(head, -1, map[], 0, None, None, map[], [])
  }

  // ----- No holes below the mark -----

  // A scan covers a block for a listener when the block was in its range, and not behind the mark at that time
  ghost predicate Scanned(m: Member, b: int) {
    exists k :: 0 <= k < |m.scans| && m.scans[k].fromBlock <= b <= m.scans[k].toBlock && m.scans[k].mark <= b
  }

  ghost predicate ScannedUpTo(m: Member, end: int) {
    forall b: int :: m.start <= b < end ==> Scanned(m, b)
  }

  ghost predicate ScanPushed(m: Member, scan: Scan, id: Id, sent: seq<Update>) {
    forall g :: g in scan.returned && Wants(m.config, scan.mark, g) ==> Update(id, g) in sent
  }

  // Each block from the start of the listener to its mark was scanned, and each log it wants that a scan returned
  // was pushed
  ghost predicate NoHoles(m: Member, id: Id, sent: seq<Update>) {
    && m.start <= m.hwm && ScannedUpTo(m, m.hwm)
    && forall k :: 0 <= k < |m.scans| ==> ScanPushed(m, m.scans[k], id, sent)
  }

  // The detected checkpoint of a listener is at or above every event pushed for it
  ghost predicate DetectedFirst(s: State) {
    forall u :: u in s.sent ==>
      u.listener in s.members && AtOrAbove(s.members[u.listener].lastDetected, CheckpointOf(u.log))
  }

  lemma {:induction false} ScansMore(m: Member, m': Member, scan: Scan, b: int)
    requires m'.scans == m.scans + [scan]
    ensures Scanned(m', b) <==> Scanned(m, b) || (scan.fromBlock <= b <= scan.toBlock && scan.mark <= b)
  {
    assert m'.scans[|m.scans|] == scan;
    if Scanned(m, b) {
      var k :| 0 <= k < |m.scans| && m.scans[k].fromBlock <= b <= m.scans[k].toBlock && m.scans[k].mark <= b;
      assert m'.scans[k] == m.scans[k];
    }
    if Scanned(m', b) && !(scan.fromBlock <= b <= scan.toBlock && scan.mark <= b) {
      var k :| 0 <= k < |m'.scans| && m'.scans[k].fromBlock <= b <= m'.scans[k].toBlock && m'.scans[k].mark <= b;
      assert m'.scans[k] == m.scans[k];
    }
  }

  /** A scan that begins where the scanned blocks end, or in front of that, leaves no hole below the mark it sets, if
      all that the listener wants of it was pushed before. */
  lemma {:induction false} MoveLeavesNoHole(m: Member, id: Id, sent: seq<Update>, scan: Scan, mark: int)
    requires NoHoles(m, id, sent) && ScannedUpTo(m, scan.fromBlock) && scan.mark <= m.hwm && mark <= scan.toBlock + 1
    requires ScanPushed(m, scan, id, sent)
    ensures var m' := m.(hwm := Max(m.hwm, mark), scans := m.scans + [scan]);
            && NoHoles(m', id, sent) && ScannedUpTo(m', scan.toBlock + 1)
            && forall b: int :: Scanned(m, b) ==> Scanned(m', b)
  {
    var m' := m.(hwm := Max(m.hwm, mark), scans := m.scans + [scan]);
    forall b: int
      ensures Scanned(m', b) <==> Scanned(m, b) || (scan.fromBlock <= b <= scan.toBlock && scan.mark <= b)
    {
      ScansMore(m, m', scan, b);
    }
    forall k | 0 <= k < |m'.scans|
      ensures ScanPushed(m', m'.scans[k], id, sent)
    {
      assert k < |m.scans| ==> ScanPushed(m, m.scans[k], id, sent);
    }
  }

  // ----- The invariant -----

  ghost predicate MemberOk(cfg: Config, s: State, id: Id)
    requires id in s.members
  {
    var m := s.members[id];
    NoHoles(m, id, s.sent) && (!cfg.lightMode ==> m.hwm <= m.start || m.hwm <= Stable(cfg, s.head) + 1)
  }

  ghost predicate AllScannedUpTo(s: State, ids: set<Id>, end: int) {
    forall id :: id in ids ==> id in s.members && ScannedUpTo(s.members[id], end)
  }

  // What is still wanted of an answer is yet to be pushed
  ghost predicate PushedOrPending(s: State, a: Answer, id: Id)
    requires id in s.members && id in a.marks
  {
    forall g :: g in a.returned && Wants(s.members[id].config, a.marks[id], g) ==>
      Update(id, g) in s.sent || Update(id, g) in a.events
  }

  ghost predicate AnswerOk(s: State, f: Flight, a: Answer) {
    && a.marks.Keys == f.members <= s.members.Keys
    && (forall id :: id in f.members ==> a.marks[id] <= s.members[id].hwm && PushedOrPending(s, a, id))
    && (forall u :: u in a.events ==> u.listener in f.members)
    && a.moved <= f.members && AllScannedUpTo(s, a.moved, f.toBlock + 1) && (a.moved != {} ==> a.events == [])
    && (a.detected ==>
         a.events != [] && AtOrAbove(s.members[a.events[0].listener].lastDetected, CheckpointOf(a.events[0].log)))
  }

  ghost predicate FlightOk(cfg: Config, s: State, loop: Loop, f: Flight) {
    && f.fromBlock <= f.toBlock && f.mark <= f.toBlock + 1 && AllScannedUpTo(s, f.members, f.fromBlock)
    && (!cfg.lightMode ==> f.mark <= Stable(cfg, s.head) + if f.steady then 0 else 1)
    && (loop.OwnLoop? ==> !f.steady && f.members == {loop.id} && f.mark <= s.headBlock)
    && (f.answer.Some? ==> AnswerOk(s, f, f.answer.value))
  }

  ghost predicate PositionOk(cfg: Config, s: State) {
    && s.headBlock >= -1 && (!cfg.lightMode ==> s.headBlock <= Stable(cfg, s.head))
    && (s.group.Some? ==> s.group.value.members <= s.members.Keys)
    && (s.poll.Some? ==> s.group.Some? && AllScannedUpTo(s, s.group.value.members, s.poll.value))
    && (LeadLoop in s.flights && s.flights[LeadLoop].steady ==>
         s.poll.Some? && s.group.value.members == s.flights[LeadLoop].members)
  }

  ghost predicate Inv(cfg: Config, s: State) {
    && (forall id :: id in s.members ==> MemberOk(cfg, s, id))
    && (forall loop :: loop in s.flights ==> FlightOk(cfg, s, loop, s.flights[loop]))
    && DetectedFirst(s) && PositionOk(cfg, s)
  }

  // A listener as it was, or further on
  ghost predicate MemberFurther(m: Member, m': Member) {
    && m'.config == m.config && m'.start == m.start && m.hwm <= m'.hwm
    && (forall b: int :: Scanned(m, b) ==> Scanned(m', b))
    && (forall cp: Checkpoint :: AtOrAbove(m.lastDetected, cp) ==> AtOrAbove(m'.lastDetected, cp))
  }

  // No mark and no established position moves backwards, and what was pushed stays pushed
  ghost predicate Further(s: State, s': State) {
    && s.members.Keys <= s'.members.Keys && s.headBlock <= s'.headBlock && s.sent <= s'.sent
    && forall id :: id in s.members ==> MemberFurther(s.members[id], s'.members[id])
  }

  // ----- Every step keeps it -----

  lemma {:induction false} AnswerLater(s: State, s': State, f: Flight, a: Answer)
    requires AnswerOk(s, f, a) && Further(s, s')
    ensures AnswerOk(s', f, a)
  {
    forall id | id in f.members
      ensures PushedOrPending(s', a, id)
    {
      assert PushedOrPending(s, a, id) && MemberFurther(s.members[id], s'.members[id]);
    }
  }

  lemma {:induction false} FlightLater(cfg: Config, s: State, s': State, loop: Loop, f: Flight)
    requires FlightOk(cfg, s, loop, f) && Further(s, s') && (cfg.lightMode || s.head <= s'.head)
    ensures FlightOk(cfg, s', loop, f)
  {
    if f.answer.Some? {
      AnswerLater(s, s', f, f.answer.value);
    }
  }

  // It is enough to look at what a step changes
  lemma {:induction false} KeepsInv(cfg: Config, s: State, s': State)
    requires Inv(cfg, s) && Further(s, s') && (cfg.lightMode || s.head <= s'.head)
    requires forall id :: id in s'.members ==> MemberOk(cfg, s', id)
    requires DetectedFirst(s') && PositionOk(cfg, s')
    requires forall loop :: loop in s'.flights ==>
               (loop in s.flights && s'.flights[loop] == s.flights[loop]) || FlightOk(cfg, s', loop, s'.flights[loop])
    ensures Inv(cfg, s')
  {
    forall loop | loop in s'.flights
      ensures FlightOk(cfg, s', loop, s'.flights[loop])
    {
      if loop in s.flights && s'.flights[loop] == s.flights[loop] {
        FlightLater(cfg, s, s', loop, s.flights[loop]);
      }
    }
  }

  // Listeners keep their scans, and others may be new
  ghost predicate SameScans(s: State, s': State) {
    && s.members.Keys <= s'.members.Keys && s.sent <= s'.sent
    && forall id :: id in s.members ==>
         var m, m' := s.members[id], s'.members[id];
         && m'.config == m.config && m'.start == m.start && m'.hwm == m.hwm && m'.scans == m.scans
         && (forall cp: Checkpoint :: AtOrAbove(m.lastDetected, cp) ==> AtOrAbove(m'.lastDetected, cp))
  }

  lemma {:induction false} SameScansKeep(cfg: Config, s: State, s': State)
    requires Inv(cfg, s) && SameScans(s, s') && s.headBlock <= s'.headBlock && (cfg.lightMode || s.head <= s'.head)
    ensures Further(s, s') && forall id :: id in s.members ==> MemberOk(cfg, s', id)
  {
    forall id | id in s.members
      ensures MemberFurther(s.members[id], s'.members[id]) && MemberOk(cfg, s', id)
    {
      SameScan(s.members[id], s'.members[id], id, s.sent, s'.sent);
    }
  }

  lemma {:induction false} SameScan(m: Member, m': Member, id: Id, sent: seq<Update>, sent': seq<Update>)
    requires m'.config == m.config && m'.start == m.start && m'.hwm == m.hwm && m'.scans == m.scans && sent <= sent'
    ensures forall b: int :: Scanned(m, b) ==> Scanned(m', b)
    ensures NoHoles(m, id, sent) ==> NoHoles(m', id, sent')
  {
    if NoHoles(m, id, sent) {
      forall k | 0 <= k < |m'.scans|
        ensures ScanPushed(m', m'.scans[k], id, sent')
      {
        assert ScanPushed(m, m.scans[k], id, sent);
      }
    }
  }

  // The steps outside of a page
  lemma {:induction false} LocalStep(cfg: Config, s: State, step: Step)
    requires Inv(cfg, s) && Enabled(cfg, s, step) && !OfPage(step)
    ensures Inv(cfg, Apply(cfg, s, step)) && Further(s, Apply(cfg, s, step))
  {
    var s' := Apply(cfg, s, step);
    LocalScans(cfg, s, step);
    SameScansKeep(cfg, s, s');
    if step.Add? {
      assert NoHoles(s'.members[step.id], step.id, s'.sent);
    }
    LocalPosition(cfg, s, step);
    LocalFlights(cfg, s, step);
    KeepsInv(cfg, s, s');
  }

  lemma {:induction false} LocalScans(cfg: Config, s: State, step: Step)
    requires Inv(cfg, s) && Enabled(cfg, s, step) && !OfPage(step)
    ensures var s' := Apply(cfg, s, step);
            SameScans(s, s') && s'.sent == s.sent && s.headBlock <= s'.headBlock && (cfg.lightMode || s.head <= s'.head)
  {
  }

  lemma {:induction false} LocalPosition(cfg: Config, s: State, step: Step)
    requires Inv(cfg, s) && Enabled(cfg, s, step) && !OfPage(step) && Further(s, Apply(cfg, s, step))
    ensures DetectedFirst(Apply(cfg, s, step)) && PositionOk(cfg, Apply(cfg, s, step))
  {
  }

  lemma {:induction false} LocalFlights(cfg: Config, s: State, step: Step)
    requires Inv(cfg, s) && Enabled(cfg, s, step) && !OfPage(step)
    ensures var s' := Apply(cfg, s, step);
            forall loop :: loop in s'.flights ==>
              (loop in s.flights && s'.flights[loop] == s.flights[loop]) || FlightOk(cfg, s', loop, s'.flights[loop])
  {
  }

  // The query fails, or the page is finished
  lemma {:induction false} EndStep(cfg: Config, s: State, step: Step)
    requires Inv(cfg, s) && Enabled(cfg, s, step) && (step.Abort? || step.Finish?)
    ensures Inv(cfg, Apply(cfg, s, step)) && Further(s, Apply(cfg, s, step))
  {
    var s' := Apply(cfg, s, step);
    var f := s.flights[step.loop];
    assert FlightOk(cfg, s, step.loop, f);
    assert f.steady ==> step.loop == LeadLoop;
    SameScansKeep(cfg, s, s');
    KeepsInv(cfg, s, s');
  }

  lemma {:induction false} PositionLater(cfg: Config, s: State, s': State)
    requires PositionOk(cfg, s) && Further(s, s') && s'.head == s.head && s'.headBlock == s.headBlock
    requires s'.group == s.group && s'.poll == s.poll
    requires LeadLoop in s'.flights && s'.flights[LeadLoop].steady ==>
               && LeadLoop in s.flights && s.flights[LeadLoop].steady
               && s'.flights[LeadLoop].members == s.flights[LeadLoop].members
    ensures PositionOk(cfg, s')
  {
  }

  // A page goes on
  lemma {:induction false} PageGoesOn(cfg: Config, s: State, s': State, loop: Loop, a: Answer)
    requires Inv(cfg, s) && loop in s.flights && Further(s, s')
    requires s' == WithAnswer(s, loop, a).(members := s'.members, sent := s'.sent)
    requires forall id :: id in s'.members ==> MemberOk(cfg, s', id)
    requires DetectedFirst(s') && AnswerOk(s', s.flights[loop], a)
    ensures Inv(cfg, s')
  {
    FlightLater(cfg, s, s', loop, s.flights[loop]);
    assert FlightOk(cfg, s', loop, s'.flights[loop]);
    PositionLater(cfg, s, s');
    KeepsInv(cfg, s, s');
  }

  lemma {:induction false} ReceiveStep(cfg: Config, s: State, step: Step)
    requires Inv(cfg, s) && Enabled(cfg, s, step) && step.Receive?
    ensures Inv(cfg, Apply(cfg, s, step)) && Further(s, Apply(cfg, s, step))
  {
    var s' := Apply(cfg, s, step);
    var f, a := s.flights[step.loop], s'.flights[step.loop].answer.value;
    assert FlightOk(cfg, s, step.loop, f);
    SameScansKeep(cfg, s, s');
    forall id | id in f.members
      ensures PushedOrPending(s', a, id)
    {
      forall g | g in a.returned && Wants(s.members[id].config, a.marks[id], g)
        ensures Update(id, g) in a.events
      {
        assert Update(id, g).listener == id;
      }
    }
    PageGoesOn(cfg, s, s', step.loop, a);
  }

  lemma {:induction false} DetectStep(cfg: Config, s: State, step: Step)
    requires Inv(cfg, s) && Enabled(cfg, s, step) && step.Detect?
    ensures Inv(cfg, Apply(cfg, s, step)) && Further(s, Apply(cfg, s, step))
  {
    var s' := Apply(cfg, s, step);
    var f, a := s.flights[step.loop], s.flights[step.loop].answer.value;
    assert FlightOk(cfg, s, step.loop, f);
    SameScansKeep(cfg, s, s');
    AnswerLater(s, s', f, a);
    forall id | id in f.members
      ensures PushedOrPending(s', a.(detected := true), id)
    {
      assert PushedOrPending(s', a, id);
    }
    PageGoesOn(cfg, s, s', step.loop, a.(detected := true));
  }

  lemma {:induction false} PushStep(cfg: Config, s: State, step: Step)
    requires Inv(cfg, s) && Enabled(cfg, s, step) && step.Push?
    ensures Inv(cfg, Apply(cfg, s, step)) && Further(s, Apply(cfg, s, step))
  {
    var s' := Apply(cfg, s, step);
    var f, a, a' := s.flights[step.loop], s.flights[step.loop].answer.value, s'.flights[step.loop].answer.value;
    assert FlightOk(cfg, s, step.loop, f);
    SameScansKeep(cfg, s, s');
    assert a.events == [a.events[0]] + a'.events;
    forall id | id in f.members
      ensures PushedOrPending(s', a', id)
    {
      assert PushedOrPending(s, a, id);
    }
    PageGoesOn(cfg, s, s', step.loop, a');
  }

  lemma {:induction false} MoveStep(cfg: Config, s: State, step: Step)
    requires Inv(cfg, s) && Enabled(cfg, s, step) && step.Move?
    ensures Inv(cfg, Apply(cfg, s, step)) && Further(s, Apply(cfg, s, step))
    ensures step.loop.OwnLoop? ==> Apply(cfg, s, step).members[step.id].hwm <= Max(s.members[step.id].hwm, s.headBlock)
  {
    var s', id := Apply(cfg, s, step), step.id;
    var f, a := s.flights[step.loop], s.flights[step.loop].answer.value;
    assert FlightOk(cfg, s, step.loop, f);
    MovedMember(cfg, s, f, a, id, s'.members[id]);
    MovedFurther(cfg, s, s', id);
    AnswerLater(s, s', f, a);
    MovedAnswer(s', f, a, id);
    PageGoesOn(cfg, s, s', step.loop, a.(moved := a.moved + {id}));
  }

  lemma {:induction false} MovedMember(cfg: Config, s: State, f: Flight, a: Answer, id: Id, m': Member)
    requires id in f.members && AnswerOk(s, f, a) && a.events == [] && MemberOk(cfg, s, id)
    requires AllScannedUpTo(s, f.members, f.fromBlock) && f.mark <= f.toBlock + 1
    requires m' == s.members[id].(hwm := Max(s.members[id].hwm, f.mark),
                                  scans := s.members[id].scans + [ScanOf(f, a, id)])
    ensures NoHoles(m', id, s.sent) && MemberFurther(s.members[id], m') && ScannedUpTo(m', f.toBlock + 1)
  {
    assert PushedOrPending(s, a, id);
    MoveLeavesNoHole(s.members[id], id, s.sent, ScanOf(f, a, id), f.mark);
  }

  lemma {:induction false} MovedFurther(cfg: Config, s: State, s': State, id: Id)
    requires Inv(cfg, s) && id in s.members && id in s'.members
    requires s'.members == s.members[id := s'.members[id]] && MemberFurther(s.members[id], s'.members[id])
    requires s'.headBlock == s.headBlock && s'.sent == s.sent && s'.head == s.head
    requires NoHoles(s'.members[id], id, s.sent) && s'.members[id].lastDetected == s.members[id].lastDetected
    requires !cfg.lightMode ==> s'.members[id].hwm <= Max(s.members[id].hwm, Stable(cfg, s.head) + 1)
    ensures Further(s, s') && DetectedFirst(s') && forall other :: other in s'.members ==> MemberOk(cfg, s', other)
  {
    forall other | other in s'.members
      ensures MemberOk(cfg, s', other) && MemberFurther(s.members[other], s'.members[other])
    {
      assert MemberOk(cfg, s, other);
    }
  }

  lemma {:induction false} MovedAnswer(s: State, f: Flight, a: Answer, id: Id)
    requires AnswerOk(s, f, a) && id in f.members && a.events == [] && ScannedUpTo(s.members[id], f.toBlock + 1)
    ensures AnswerOk(s, f, a.(moved := a.moved + {id}))
  {
    forall other | other in f.members
      ensures PushedOrPending(s, a.(moved := a.moved + {id}), other)
    {
      assert PushedOrPending(s, a, other);
    }
  }

  /** Every step of every loop keeps the invariant. No mark and no established position of the lead group ever moves
      backwards, and a listener's own catchup never takes its mark past that position. */
  lemma {:induction false} StepKeepsInv(cfg: Config, s: State, step: Step)
    requires Inv(cfg, s) && Enabled(cfg, s, step)
    ensures var s' := Apply(cfg, s, step);
            && Inv(cfg, s') && Further(s, s')
            && (step.Move? && step.loop.OwnLoop? ==>
              s'.members[step.id].hwm <= Max(s.members[step.id].hwm, s.headBlock))
  {
    if !OfPage(step) {
      LocalStep(cfg, s, step);
    } else if step.Move? {
      MoveStep(cfg, s, step);
    } else if step.Detect? {
      DetectStep(cfg, s, step);
    } else if step.Push? {
      PushStep(cfg, s, step);
    } else if step.Receive? {
      ReceiveStep(cfg, s, step);
    } else {
      EndStep(cfg, s, step);
    }
  }

  // ----- Whole runs -----

  ghost predicate IsRun(cfg: Config, s: State, steps: seq<Step>, s': State)
    decreases |steps|
  {
    if steps == [] then s' == s
    else Enabled(cfg, s, steps[0]) && IsRun(cfg, Apply(cfg, s, steps[0]), steps[1..], s')
  }

  lemma {:induction false} FurtherTransitive(s: State, s1: State, s2: State)
    requires Further(s, s1) && Further(s1, s2)
    ensures Further(s, s2)
  {
    forall id | id in s.members
      ensures MemberFurther(s.members[id], s2.members[id])
    {
      assert MemberFurther(s.members[id], s1.members[id]) && MemberFurther(s1.members[id], s2.members[id]);
    }
  }

  /** Over all interleavings of the loops, and at every point of them: from the start of a listener to its mark each
      block was queried while it was not behind the mark, every log the listener wants of those answers was pushed,
      and its detected checkpoint is at or above each event pushed for it. In full mode the position of the lead group
      is never past the stable head, and no mark is past the larger of its start and one past the stable head. */
  lemma {:induction false} RunKeepsInv(cfg: Config, s: State, steps: seq<Step>, s': State)
    requires Inv(cfg, s) && IsRun(cfg, s, steps, s')
    ensures Inv(cfg, s') && Further(s, s') && DetectedFirst(s')
    ensures forall id :: id in s'.members ==> NoHoles(s'.members[id], id, s'.sent)
    ensures !cfg.lightMode ==>
      && s'.headBlock <= Stable(cfg, s'.head)
      && forall id :: id in s'.members ==>
           s'.members[id].hwm <= s'.members[id].start || s'.members[id].hwm <= Stable(cfg, s'.head) + 1
    decreases |steps|
  {
    if steps != [] {
      var s1 := Apply(cfg, s, steps[0]);
      StepKeepsInv(cfg, s, steps[0]);
      RunKeepsInv(cfg, s1, steps[1..], s');
      FurtherTransitive(s, s1, s');
    }
    forall id | id in s'.members
      ensures NoHoles(s'.members[id], id, s'.sent)
    {
      assert MemberOk(cfg, s', id);
    }
  }

  lemma {:induction false} InitialInv(cfg: Config, head: nat)
    ensures Inv(cfg, Initial(head))
  {
  }

  /** So it is over every run from a stream without listeners. */
  lemma {:induction false} EveryRunKeepsInv(cfg: Config, head: nat, steps: seq<Step>, s': State)
    requires IsRun(cfg, Initial(head), steps, s')
    ensures DetectedFirst(s') && forall id :: id in s'.members ==> NoHoles(s'.members[id], id, s'.sent)
    ensures !cfg.lightMode ==>
      && s'.headBlock <= Stable(cfg, s'.head)
      && forall id :: id in s'.members ==> s'.members[id].hwm <= Max(s'.members[id].start, Stable(cfg, s'.head) + 1)
  {
    InitialInv(cfg, head);
    RunKeepsInv(cfg, Initial(head), steps, s');
  }
}

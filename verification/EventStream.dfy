/**
 The loops that bring the listeners of an event stream to the head of the chain.
 */
module EventStream {
  import opened Blocks
  import opened AggregatedListener
  import opened EventListener
  import opened GetLogsPolling
  import opened SteadyState

  // ----- The page size, shared by all loops -----

  datatype Settings = Settings(lightMode: bool, checkpointBlockGap: nat, catchupPageSize: int, catchupThreshold: int)

  // What the connector makes of its configuration, or none if it is refused
  function Configure(s: Settings): (r: Option<Settings>)
    ensures r.Some? ==> 1 <= r.value.catchupPageSize <= r.value.catchupThreshold
    ensures r.Some? && s.lightMode ==> r.value.catchupPageSize >= s.checkpointBlockGap + 1
  {
    if s.catchupPageSize < 1 || (s.lightMode && s.catchupPageSize < s.checkpointBlockGap + 1) then None
    else Some(s.(catchupThreshold := Max(s.catchupThreshold, s.catchupPageSize)))
  }

  function Downscaled(s: Settings): Settings {
    if s.catchupPageSize <= 1 then s
    else
      var half := s.catchupPageSize / 2;
      var floor := s.checkpointBlockGap + 1;
      if s.lightMode && half < floor then
        if s.catchupPageSize <= floor then s else s.(catchupPageSize := floor)
      else s.(catchupPageSize := half)
  }

  function DownscaledTimes(s: Settings, n: nat): Settings {
    if n == 0 then s else Downscaled(DownscaledTimes(s, n - 1))
  }

  ghost predicate PageSizeOk(s: Settings) {
    && 1 <= s.catchupPageSize <= s.catchupThreshold
    && (s.lightMode ==> s.catchupPageSize >= s.checkpointBlockGap + 1)
  }

  /** However often the page size is reduced, a page stays positive, and in light mode covers the unstable window. */
  lemma {:induction false} PageSizeNeverTooSmall(s: Settings, n: nat)
    requires PageSizeOk(s)
    ensures var d := DownscaledTimes(s, n);
            PageSizeOk(d) && d == s.(catchupPageSize := d.catchupPageSize) && d.catchupPageSize <= s.catchupPageSize
  {
    if n > 0 {
      PageSizeNeverTooSmall(s, n - 1);
    }
  }

  /** The configuration is refused exactly when the page size is not positive, or in light mode does not cover the
      unstable window. A threshold that is at least the page size is kept, and a lower one is raised to it. */
  lemma {:induction false} ConfigureExactly(s: Settings)
    ensures Configure(s).None? <==> s.catchupPageSize < PageFloor(s)
    ensures Configure(s).Some? && s.catchupThreshold >= s.catchupPageSize ==> Configure(s) == Some(s)
    ensures Configure(s).Some? && s.catchupThreshold < s.catchupPageSize ==>
              Configure(s) == Some(s.(catchupThreshold := s.catchupPageSize))
  {
  }

  // The size that a page is not reduced below
  function PageFloor(s: Settings): int {
    if s.lightMode then s.checkpointBlockGap + 1 else 1
  }

  function Power2(n: nat): (p: nat)
    ensures p > n
  {
    if n == 0 then 1 else 2 * Power2(n - 1)
  }

  /** A reduction halves the page size, down to the floor, so that it is smaller unless it is at the floor. */
  lemma {:induction false} DownscaleReduces(s: Settings)
    requires PageSizeOk(s)
    ensures var d := Downscaled(s).catchupPageSize;
            && (s.catchupPageSize > PageFloor(s) ==>
                 d < s.catchupPageSize && d == Max(s.catchupPageSize / 2, PageFloor(s)))
            && (s.catchupPageSize <= PageFloor(s) ==> d == s.catchupPageSize == PageFloor(s))
  {
  }

  /** After n reductions it is the configured size divided by the n-th power of two, and never below the floor, so that
      it gets there. */
  lemma {:induction false} DownscaleReachesFloor(s: Settings, n: nat)
    requires PageSizeOk(s)
    ensures var d := DownscaledTimes(s, n).catchupPageSize;
            && d == Max(s.catchupPageSize / Power2(n), PageFloor(s))
            && (s.catchupPageSize <= n ==> d == PageFloor(s))
  {
    if n > 0 {
      DownscaleReachesFloor(s, n - 1);
      PageSizeNeverTooSmall(s, n - 1);
      DownscaleReduces(DownscaledTimes(s, n - 1));
      HalfOfQuotient(s.catchupPageSize, Power2(n - 1));
    }
    if s.catchupPageSize <= n {
      QuotientIs(s.catchupPageSize, Power2(n), 0, s.catchupPageSize);
    }
  }

  lemma {:induction false} HalfOfQuotient(x: nat, p: nat)
    requires p > 0
    ensures x / p / 2 == x / (2 * p)
  {
    var h, odd := x / p / 2, x / p % 2;
    assert x == p * (2 * h + odd) + x % p == h * (2 * p) + (p * odd + x % p);
    assert odd == 0 || odd == 1;
    QuotientIs(x, 2 * p, h, p * odd + x % p);
  }

  lemma {:induction false} QuotientIs(x: nat, d: nat, q: nat, rest: nat)
    requires x == q * d + rest && rest < d
    ensures x / d == q
  {
    var p := x / d;
    assert x == p * d + x % d;
    ProductsRise(p + 1, q, d);
    ProductsRise(q + 1, p, d);
  }

  lemma {:induction false} ProductsRise(a: nat, b: nat, d: nat)
    ensures a <= b ==> a * d <= b * d
  {
  }

  class Connector {
    const lightMode: bool
    const checkpointBlockGap: nat
    const catchupThreshold: int
    var catchupPageSize: int

    function State(): Settings
      reads this
    {
      Settings(lightMode, checkpointBlockGap, catchupPageSize, catchupThreshold)
    }

    constructor (s: Settings)
      ensures State() == s
    {
      lightMode, checkpointBlockGap, catchupThreshold, catchupPageSize :=
        s.lightMode, s.checkpointBlockGap, s.catchupThreshold, s.catchupPageSize;
    }

    static method NewConnector(s: Settings) returns (c: Option<Connector>)
      ensures c.Some? <==> Configure(s).Some?
      ensures c.Some? ==> fresh(c.value) && Configure(s) == Some(c.value.State()) && PageSizeOk(c.value.State())
    {
      var threshold := s.catchupThreshold;
      if s.catchupPageSize < 1 {
        return None;
      }
      if threshold < s.catchupPageSize {
        threshold := s.catchupPageSize;
      }
      if s.lightMode {
        if s.catchupPageSize < s.checkpointBlockGap + 1 {
          return None;
        }
      }
      var connector := new Connector(s.(catchupThreshold := threshold));
      c := Some(connector);
    }

    method DownscaleCatchupPageSize()
      modifies this
      ensures State() == Downscaled(old(State()))
      ensures var floor := if lightMode then checkpointBlockGap + 1 else 1;
              catchupPageSize ==
                if old(catchupPageSize) > floor then Max(old(catchupPageSize) / 2, floor) else old(catchupPageSize)
    {
      var current := catchupPageSize;
      if current <= 1 {
        return;
      }
      var newSize := current / 2;
      if lightMode {
        var floor := checkpointBlockGap + 1;
        if newSize < floor {
          if current <= floor {
            return;
          }
          newSize := floor;
        }
      }
      catchupPageSize := newSize;
    }
  }

  // ----- Catchup of the lead group -----

  // A range that was polled, and what the loop saw when it polled it
  datatype Range<I> = Range(fromBlock: int, toBlock: int, input: I)

  predicate Covered<I>(pages: seq<Range<I>>, b: int) {
    exists k :: 0 <= k < |pages| && pages[k].fromBlock <= b <= pages[k].toBlock
  }

  // One iteration of the loop: poll the next page, unless the group is less than the threshold behind
  function CatchupPage(cfg: Config, s: Lead, ag: Aggregated, i: Input): (Lead, Status)
    requires CanReply(i)
  {
    var stable, fromBlock := StableHead(i.chainHead, cfg.checkpointBlockGap), LowestMark(s.hwm, ag.listeners);
    if ag.listeners == [] || stable - fromBlock < cfg.catchupThreshold then (s, UpToDate)
    else if i.reply.None? then (s, Retrying)
    else
      match FilterLogs(ag, Mark(s.hwm), i.reply.value, i.enrich)
      case None => (s, Retrying)
      case Some(events) =>
        var toBlock := Min(fromBlock + i.pageSize - 1, stable);
        (s.(hwm := MoveForwards(s.hwm, ag.listeners, toBlock + 1), detected := DetectAll(s.detected, events),
            sent := s.sent + events),
         Polled)
  }

  // The loop runs until the group is up to date, or the stream stops
  function CatchupRun(cfg: Config, s: Lead, ag: Aggregated, inputs: seq<Input>): (Lead, Status)
    requires forall k :: 0 <= k < |inputs| ==> CanReply(inputs[k])
    decreases |inputs|
  {
    if inputs == [] then (s, Stopped)
    else
      var (s1, status) := CatchupPage(cfg, s, ag, inputs[0]);
      if status.UpToDate? then (s1, status) else CatchupRun(cfg, s1, ag, inputs[1..])
  }

  // The ranges it polls
  function CatchupRanges(cfg: Config, s: Lead, ag: Aggregated, inputs: seq<Input>): seq<Range<Input>>
    requires forall k :: 0 <= k < |inputs| ==> CanReply(inputs[k])
    decreases |inputs|
  {
    if inputs == [] || CatchupPage(cfg, s, ag, inputs[0]).1.UpToDate? then []
    else
      var (s1, status) := CatchupPage(cfg, s, ag, inputs[0]);
      var rest := CatchupRanges(cfg, s1, ag, inputs[1..]);
      if status.Polled? then [CatchupRange(cfg, s, ag, inputs[0])] + rest else rest
  }

  function CatchupRange(cfg: Config, s: Lead, ag: Aggregated, i: Input): Range<Input> {
    var fromBlock := LowestMark(s.hwm, ag.listeners);
    Range(fromBlock, Min(fromBlock + i.pageSize - 1, StableHead(i.chainHead, cfg.checkpointBlockGap)), i)
  }

  // The page of an iteration, if it polled one
  function CatchupPagePollings(cfg: Config, s: Lead, ag: Aggregated, i: Input): seq<Polling>
    requires CanReply(i)
  {
    var page := CatchupRange(cfg, s, ag, i);
    if CatchupPage(cfg, s, ag, i).1.Polled? then [Polling(page.fromBlock, page.toBlock, s.hwm, i.reply.value)] else []
  }

  function CatchupPollings(cfg: Config, s: Lead, ag: Aggregated, inputs: seq<Input>): seq<Polling>
    requires forall k :: 0 <= k < |inputs| ==> CanReply(inputs[k])
    decreases |inputs|
  {
    if inputs == [] || CatchupPage(cfg, s, ag, inputs[0]).1.UpToDate? then []
    else
      CatchupPagePollings(cfg, s, ag, inputs[0])
      + CatchupPollings(cfg, CatchupPage(cfg, s, ag, inputs[0]).0, ag, inputs[1..])
  }

  /** Catchup of the lead group, for any heads, page sizes and failures on the way. */
  method LeadGroupCatchup(g: LeadGroup, ag: Aggregated, inputs: seq<Input>) returns (status: Status)
    requires forall k :: 0 <= k < |inputs| ==> CanReply(inputs[k])
    modifies g`hwm, g`detected, g`sent
    ensures (g.State(), status) == CatchupRun(g.cfg, old(g.State()), ag, inputs)
  {
    var n := 0;
    assert inputs[n..] == inputs;
    while n < |inputs|
      invariant n <= |inputs|
      invariant CatchupRun(g.cfg, g.State(), ag, inputs[n..]) == CatchupRun(g.cfg, old(g.State()), ag, inputs)
    {
      assert inputs[n..][1..] == inputs[n + 1..];
      status := CatchupIteration(g, ag, inputs[n]);
      if status.UpToDate? {
        return;
      }
      n := n + 1;
    }
    status := Stopped;
  }

  method CatchupIteration(g: LeadGroup, ag: Aggregated, i: Input) returns (status: Status)
    requires CanReply(i)
    modifies g`hwm, g`detected, g`sent
    ensures (g.State(), status) == CatchupPage(g.cfg, old(g.State()), ag, i)
  {
    if |ag.listeners| == 0 {
      return UpToDate;
    }
    var fromBlock := g.LowestOf(ag.listeners);
    var pollableHead := i.chainHead - g.cfg.checkpointBlockGap;
    if pollableHead < 0 {
      pollableHead := 0;
    }
    var headGap := pollableHead - fromBlock;
    if headGap < g.cfg.catchupThreshold {
      return UpToDate;
    }
    var toBlock := fromBlock + i.pageSize - 1;
    if toBlock > pollableHead {
      toBlock := pollableHead;
    }
    if i.reply.None? {
      return Retrying;
    }
    var events := FilterEnrich(ag, Mark(g.hwm), i.reply.value, i.enrich);
    if events.None? {
      return Retrying;
    }
    g.DispatchSetHWM(ag, events.value, toBlock + 1);
    status := Polled;
  }

  // A group with listeners, and page sizes as the connector keeps them
  ghost predicate CanCatchUp(cfg: Config, s: Lead, ag: Aggregated, inputs: seq<Input>) {
    && ag.listeners != [] && HaveMarks(s.hwm, ag.listeners) && cfg.catchupThreshold >= 1
    && forall k :: 0 <= k < |inputs| ==> CanReply(inputs[k]) && inputs[k].pageSize >= 1
  }

  // A page moves the lowest mark right behind it
  lemma {:induction false} CatchupPageMoves(cfg: Config, s: Lead, ag: Aggregated, i: Input)
    requires CanCatchUp(cfg, s, ag, [i])
    ensures CanReply([i][0])
    ensures var (s1, status) := CatchupPage(cfg, s, ag, i);
            var page := CatchupRange(cfg, s, ag, i);
            && HaveMarks(s1.hwm, ag.listeners)
            && (!status.Polled? ==> s1 == s)
            && (status.Polled? ==>
                 && page.fromBlock <= page.toBlock && LowestMark(s1.hwm, ag.listeners) == page.toBlock + 1
                 && forall k :: 0 <= k < |ag.listeners| ==>
                      s1.hwm[ag.listeners[k].id] == Max(s.hwm[ag.listeners[k].id], page.toBlock + 1))
  {
    assert CanReply([i][0]);
    if CatchupPage(cfg, s, ag, i).1.Polled? {
      LowestMarkMoves(s.hwm, ag.listeners, CatchupRange(cfg, s, ag, i).toBlock + 1);
    }
  }

  /** Which of its inputs decide what becomes of an iteration. Without a page it leaves all as it was. */
  lemma {:induction false} CatchupPageExactly(cfg: Config, s: Lead, ag: Aggregated, i: Input)
    requires CanReply(i) && ag.listeners != []
    ensures var (s1, status) := CatchupPage(cfg, s, ag, i);
            var lowest := LowestMark(s.hwm, ag.listeners);
            && (status.UpToDate? <==> StableHead(i.chainHead, cfg.checkpointBlockGap) < lowest + cfg.catchupThreshold)
            && (status.Polled? <==>
                 && !status.UpToDate? && i.reply.Some?
                 && FilterLogs(ag, Mark(s.hwm), i.reply.value, i.enrich).Some?)
            && (!status.Polled? ==> s1 == s)
            && s1.poll == s.poll && s1.headBlock == s.headBlock
  {
  }

  /** Whatever the heads, page sizes and failures on the way: catchup polls every block from the lowest mark it starts
      from to the one it ends at, in pages that are full or end at the stable head, and takes each listener exactly
      to that mark unless it was in front of it already. */
  lemma {:induction false} CatchupCovers(cfg: Config, s: Lead, ag: Aggregated, inputs: seq<Input>)
    requires CanCatchUp(cfg, s, ag, inputs)
    ensures var (r, pages) := (CatchupRun(cfg, s, ag, inputs).0, CatchupRanges(cfg, s, ag, inputs));
            var first, last := LowestMark(s.hwm, ag.listeners), LowestMark(r.hwm, ag.listeners);
            && HaveMarks(r.hwm, ag.listeners) && first <= last && (pages == [] <==> last == first)
            && (forall b :: first <= b < last ==> Covered(pages, b))
            && (forall k :: 0 <= k < |ag.listeners| ==>
                 r.hwm[ag.listeners[k].id] == Max(s.hwm[ag.listeners[k].id], last))
            && (forall k :: 0 <= k < |pages| ==> FullOrStable(cfg, pages[k]))
    decreases |inputs|
  {
    LowestMarkIsLowest(s.hwm, ag.listeners);
    if inputs != [] {
      CatchupPageMoves(cfg, s, ag, inputs[0]);
      var (s1, status) := CatchupPage(cfg, s, ag, inputs[0]);
      if !status.UpToDate? {
        CatchupCovers(cfg, s1, ag, inputs[1..]);
        if status.Polled? {
          CoveredByMore(CatchupRange(cfg, s, ag, inputs[0]), CatchupRanges(cfg, s1, ag, inputs[1..]));
        }
      }
    }
  }

  ghost predicate FullOrStable(cfg: Config, page: Range<Input>) {
    && page.fromBlock <= page.toBlock
    && page.toBlock
      == Min(page.fromBlock + page.input.pageSize - 1, StableHead(page.input.chainHead, cfg.checkpointBlockGap))
  }

  lemma {:induction false} CoveredByMore<I>(page: Range<I>, pages: seq<Range<I>>)
    ensures forall b :: page.fromBlock <= b <= page.toBlock || Covered(pages, b) ==> Covered([page] + pages, b)
  {
    var more := [page] + pages;
    forall b | page.fromBlock <= b <= page.toBlock || Covered(pages, b)
      ensures Covered(more, b)
    {
      if page.fromBlock <= b <= page.toBlock {
        assert more[0] == page;
      } else {
        var k :| 0 <= k < |pages| && pages[k].fromBlock <= b <= pages[k].toBlock;
        assert more[k + 1] == pages[k];
      }
    }
  }

  /** Over any catchup, the detected checkpoint of each listener ends at the highest of its events that were pushed, and
      of where it was. */
  lemma {:induction false} CatchupDetects(cfg: Config, s: Lead, ag: Aggregated, inputs: seq<Input>)
    requires forall k :: 0 <= k < |inputs| ==> CanReply(inputs[k])
    ensures DetectsPushed(s, CatchupRun(cfg, s, ag, inputs).0)
    decreases |inputs|
  {
    if inputs == [] {
      DetectsNothing(s, s);
    } else {
      var (s1, status) := CatchupPage(cfg, s, ag, inputs[0]);
      if status.Polled? {
        DetectsEvents(s, s1, FilterLogs(ag, Mark(s.hwm), inputs[0].reply.value, inputs[0].enrich).value);
      } else {
        DetectsNothing(s, s1);
      }
      if !status.UpToDate? {
        CatchupDetects(cfg, s1, ag, inputs[1..]);
        DetectsCompose(s, s1, CatchupRun(cfg, s1, ag, inputs[1..]).0);
      }
    }
  }

  // The query succeeds, and so does fetching details
  ghost predicate Answered(reply: Option<seq<Log>>, enrich: Enricher) {
    reply.Some? && forall l, f, g :: enrich(l, f, g)
  }

  lemma {:induction false} AnsweredFilters(ag: Aggregated, hwm: Id -> int, logs: seq<Log>, enrich: Enricher)
    requires Answered(Some(logs), enrich) && forall i :: 0 <= i < |logs| ==> logs[i].topics != []
    ensures FilterLogs(ag, hwm, logs, enrich).Some?
  {
    if logs != [] {
      AnsweredFilters(ag, hwm, logs[1..], enrich);
      AnsweredEmits(Bucket(ag.listenersByTopic0, logs[0].topics[0]), hwm, logs[0], enrich);
    }
  }

  lemma {:induction false} AnsweredEmits(listeners: seq<Listener>, hwm: Id -> int, log: Log, enrich: Enricher)
    requires Answered(Some([]), enrich)
    ensures EmitAll(listeners, hwm, log, enrich).Some?
  {
    if listeners != [] {
      AnsweredEmits(listeners[1..], hwm, log, enrich);
      AnsweredEmit(listeners[0], hwm(listeners[0].id), log, enrich, 0);
    }
  }

  lemma {:induction false} AnsweredEmit(l: Listener, hwm: int, log: Log, enrich: Enricher, j: nat)
    requires Answered(Some([]), enrich) && j <= |l.filters|
    ensures !Emit(l, hwm, log, enrich, j).EnrichFailed?
    decreases |l.filters| - j
  {
    if j < |l.filters| {
      AnsweredEmit(l, hwm, log, enrich, j + 1);
    }
  }

  /** At a head that stays, with queries that succeed, catchup ends within as many pages as the lowest mark is behind
      the stable head, less than the threshold behind it. It polls at all exactly when it is called a threshold
      or more behind. */
  lemma {:induction false} CatchupEnds(cfg: Config, s: Lead, ag: Aggregated, inputs: seq<Input>, head: nat)
    requires CanCatchUp(cfg, s, ag, inputs)
    requires forall k :: 0 <= k < |inputs| ==>
             inputs[k].chainHead == head && Answered(inputs[k].reply, inputs[k].enrich)
    requires inputs != [] && |inputs| > StableHead(head, cfg.checkpointBlockGap) - LowestMark(s.hwm, ag.listeners)
    ensures var (r, status) := CatchupRun(cfg, s, ag, inputs);
            var stable := StableHead(head, cfg.checkpointBlockGap);
            && status == UpToDate && stable - LowestMark(r.hwm, ag.listeners) < cfg.catchupThreshold
            && (CatchupRanges(cfg, s, ag, inputs) != [] <==>
              stable - LowestMark(s.hwm, ag.listeners) >= cfg.catchupThreshold)
    decreases |inputs|
  {
    CatchupPageMoves(cfg, s, ag, inputs[0]);
    AnsweredFilters(ag, Mark(s.hwm), inputs[0].reply.value, inputs[0].enrich);
    var (s1, status) := CatchupPage(cfg, s, ag, inputs[0]);
    if status.Polled? {
      CatchupEnds(cfg, s1, ag, inputs[1..], head);
    }
  }

  // ----- Catchup of one listener -----

  // What an iteration sees: the position of the lead group when it checks for readiness, and when it looks for its
  // ceiling, whether the listener was removed, the page size, the node's answer and which details can be fetched
  datatype Moment = Moment(
    headBlock: int, ceiling: int, removed: bool, pageSize: int, reply: Option<seq<Log>>, enrich: Enricher)

  // sent is what the loop pushed
  datatype Own = Own(hwm: int, lastDetected: Option<Checkpoint>, catchup: bool, sent: seq<Update>)

  predicate CanReplyOwn(m: Moment) {
    m.reply.Some? ==> forall k :: 0 <= k < |m.reply.value| ==> m.reply.value[k].topics != []
  }

  // Never past the position of the lead group
  function OwnRange(s: Own, m: Moment): Range<Moment> {
    var toBlock := s.hwm + m.pageSize - 1;
    Range(s.hwm, if m.ceiling >= 0 then Min(toBlock, m.ceiling - 1) else toBlock, m)
  }

  // One iteration of the loop. UpToDate is when the listener joins the lead group.
  function OwnPage(al: Aggregated, s: Own, m: Moment, threshold: int): (Own, Status)
    requires CanReplyOwn(m)
  {
    if m.removed then (s, Stopped)
    else if ReadyForLead(m.headBlock, s.hwm, threshold) then (s.(catchup := false), UpToDate)
    else
      var page := OwnRange(s, m);
      if m.ceiling < 0 || page.fromBlock > page.toBlock then (s, Waiting)
      else if m.reply.None? then (s, Retrying)
      else
        match FilterLogs(al, _ => s.hwm, m.reply.value, m.enrich)
        case None => (s, Retrying)
        case Some(events) =>
          (Own(Max(s.hwm, page.toBlock + 1), MarkAll(s.lastDetected, events), s.catchup, s.sent + events), Polled)
  }

  function OwnRun(al: Aggregated, s: Own, moments: seq<Moment>, threshold: int): (Own, Status)
    requires forall k :: 0 <= k < |moments| ==> CanReplyOwn(moments[k])
    decreases |moments|
  {
    if moments == [] then (s, Stopped)
    else
      var (s1, status) := OwnPage(al, s, moments[0], threshold);
      if status.Stopped? || status.UpToDate? then (s1, status) else OwnRun(al, s1, moments[1..], threshold)
  }

  function OwnRanges(al: Aggregated, s: Own, moments: seq<Moment>, threshold: int): seq<Range<Moment>>
    requires forall k :: 0 <= k < |moments| ==> CanReplyOwn(moments[k])
    decreases |moments|
  {
    if moments == [] then []
    else
      var (s1, status) := OwnPage(al, s, moments[0], threshold);
      if status.Stopped? || status.UpToDate? then []
      else
        var rest := OwnRanges(al, s1, moments[1..], threshold);
        if status.Polled? then [OwnRange(s, moments[0])] + rest else rest
  }

  // The page of an iteration, if it polled one
  function OwnPagePollings(al: Aggregated, id: Id, s: Own, m: Moment, threshold: int): seq<Polling>
    requires CanReplyOwn(m)
  {
    var page := OwnRange(s, m);
    if OwnPage(al, s, m, threshold).1.Polled? then
      [Polling(page.fromBlock, page.toBlock, map[id := s.hwm], m.reply.value)]
    else []
  }

  function OwnPollings(al: Aggregated, id: Id, s: Own, moments: seq<Moment>, threshold: int): seq<Polling>
    requires forall k :: 0 <= k < |moments| ==> CanReplyOwn(moments[k])
    decreases |moments|
  {
    if moments == [] then []
    else
      var (s1, status) := OwnPage(al, s, moments[0], threshold);
      if status.Stopped? || status.UpToDate? then []
      else OwnPagePollings(al, id, s, moments[0], threshold) + OwnPollings(al, id, s1, moments[1..], threshold)
  }

  /** A listener catches up on its own, for any positions of the lead group, page sizes and failures on the way. */
  method ListenerCatchup(l: StreamListener, al: Aggregated, moments: seq<Moment>, threshold: int)
    returns (sent: seq<Update>, status: Status)
    requires forall k :: 0 <= k < |moments| ==> CanReplyOwn(moments[k])
    modifies l`hwmBlock, l`lastDetected, l`catchup, l`removed
    ensures (Own(l.hwmBlock, l.lastDetected, l.catchup, sent), status)
         == OwnRun(al, old(Own(l.hwmBlock, l.lastDetected, l.catchup, [])), moments, threshold)
    ensures IsHighest(old(l.lastDetected), l.lastDetected, CheckpointsOf(sent))
  {
    OwnDetects(al, Own(l.hwmBlock, l.lastDetected, l.catchup, []), moments, threshold);
    sent := [];
    var n := 0;
    ghost var start := Own(l.hwmBlock, l.lastDetected, l.catchup, []);
    assert moments[n..] == moments;
    while n < |moments|
      invariant n <= |moments|
      invariant OwnRun(al, Own(l.hwmBlock, l.lastDetected, l.catchup, sent), moments[n..], threshold)
             == OwnRun(al, start, moments, threshold)
    {
      assert moments[n..][1..] == moments[n + 1..];
      // set by another routine
      l.removed := moments[n].removed;
      sent, status := CatchupOwnPage(l, al, moments[n], threshold, sent);
      if status.Stopped? || status.UpToDate? {
        return;
      }
      n := n + 1;
    }
    status := Stopped;
  }

  method CatchupOwnPage(l: StreamListener, al: Aggregated, m: Moment, threshold: int, sent: seq<Update>)
    returns (sent': seq<Update>, status: Status)
    requires CanReplyOwn(m) && l.removed == m.removed
    modifies l`hwmBlock, l`lastDetected, l`catchup
    ensures (Own(l.hwmBlock, l.lastDetected, l.catchup, sent'), status)
         == OwnPage(al, Own(old(l.hwmBlock), old(l.lastDetected), old(l.catchup), sent), m, threshold)
  {
    sent' := sent;
    var readyForLead, removed := l.CheckReadyForLeadPackOrRemoved(m.headBlock, threshold);
    if removed {
      return sent, Stopped;
    }
    if readyForLead {
      l.catchup := false;
      return sent, UpToDate;
    }
    var established := m.ceiling >= 0;
    var fromBlock := l.hwmBlock;
    var toBlock := fromBlock + m.pageSize - 1;
    if established && toBlock >= m.ceiling {
      toBlock := m.ceiling - 1;
    }
    if !established || fromBlock > toBlock {
      return sent, Waiting;
    }
    if m.reply.None? {
      return sent, Retrying;
    }
    var hwm := _ => fromBlock;
    var events := FilterEnrich(al, hwm, m.reply.value, m.enrich);
    if events.None? {
      return sent, Retrying;
    }
    sent' := MarkDetectedAndDispatch(l, events.value, sent);
    l.MoveHWMForwards(toBlock + 1);
    status := Polled;
  }

  // Each event is marked as detected, and only then pushed
  method MarkDetectedAndDispatch(l: StreamListener, events: seq<Update>, sent: seq<Update>) returns (sent': seq<Update>)
    modifies l`lastDetected
    ensures l.lastDetected == MarkAll(old(l.lastDetected), events) && sent' == sent + events
  {
    sent' := sent;
    var i := 0;
    while i < |events|
      invariant i <= |events| && sent' == sent + events[..i]
      invariant l.lastDetected == MarkAll(old(l.lastDetected), events[..i])
    {
      assert events[..i + 1][..i] == events[..i];
      l.MarkDetected(CheckpointOf(events[i].log));
      sent' := sent' + [events[i]];
      i := i + 1;
    }
    assert events[..i] == events;
  }

  ghost predicate CanCatchUpOwn(moments: seq<Moment>) {
    forall k :: 0 <= k < |moments| ==> CanReplyOwn(moments[k]) && moments[k].pageSize >= 1
  }

  ghost predicate FullOrBelow(page: Range<Moment>) {
    && page.fromBlock <= page.toBlock
    && page.toBlock == Min(page.fromBlock + page.input.pageSize - 1, page.input.ceiling - 1)
  }

  /** Whatever the listener sees on the way: it polls every block from its mark to the one it ends at, in pages that
      are full or end right below the position of the lead group, and is never taken past that position. */
  lemma {:induction false} OwnCovers(al: Aggregated, s: Own, moments: seq<Moment>, threshold: int)
    requires CanCatchUpOwn(moments)
    ensures var (r, pages) := (OwnRun(al, s, moments, threshold).0, OwnRanges(al, s, moments, threshold));
            && s.hwm <= r.hwm && (forall b :: s.hwm <= b < r.hwm ==> Covered(pages, b))
            && (forall k :: 0 <= k < |pages| ==> FullOrBelow(pages[k]))
            && r.hwm == (if pages == [] then s.hwm else pages[|pages| - 1].toBlock + 1)
    decreases |moments|
  {
    if moments != [] {
      var (s1, status) := OwnPage(al, s, moments[0], threshold);
      if !status.Stopped? && !status.UpToDate? {
        OwnCovers(al, s1, moments[1..], threshold);
        if status.Polled? {
          CoveredByMore(OwnRange(s, moments[0]), OwnRanges(al, s1, moments[1..], threshold));
        }
      }
    }
  }

  /** What becomes of an iteration, and where it takes the listener. */
  lemma {:induction false} OwnPageExactly(al: Aggregated, s: Own, m: Moment, threshold: int)
    requires CanReplyOwn(m)
    ensures var (r, status) := OwnPage(al, s, m, threshold);
            var ready := 0 <= m.headBlock < s.hwm + threshold;
            && (status.Stopped? <==> m.removed)
            && (status.UpToDate? <==> !m.removed && ready)
            && (status.Polled? <==>
                 && !m.removed && !ready && s.hwm < m.ceiling && 0 <= m.ceiling && 1 <= m.pageSize
                 && m.reply.Some? && FilterLogs(al, _ => s.hwm, m.reply.value, m.enrich).Some?)
            && (status.Polled? ==> r.hwm == Min(s.hwm + m.pageSize, m.ceiling) && r.catchup == s.catchup)
            && (!status.Polled? ==> r == s.(catchup := s.catchup && !status.UpToDate?))
  {
  }

  /** Whatever the listener sees on the way: its detected checkpoint ends at the highest of the events it pushed, and of
      where it was. */
  lemma {:induction false} OwnDetects(al: Aggregated, s: Own, moments: seq<Moment>, threshold: int)
    requires forall k :: 0 <= k < |moments| ==> CanReplyOwn(moments[k])
    ensures var r := OwnRun(al, s, moments, threshold).0;
            && s.sent <= r.sent
            && IsHighest(s.lastDetected, r.lastDetected, CheckpointsOf(r.sent[|s.sent|..]))
    decreases |moments|
  {
    if moments != [] {
      var (s1, status) := OwnPage(al, s, moments[0], threshold);
      OwnPageDetects(al, s, moments[0], threshold);
      if !status.Stopped? && !status.UpToDate? {
        OwnDetects(al, s1, moments[1..], threshold);
        var r := OwnRun(al, s1, moments[1..], threshold).0;
        var a, b := s1.sent[|s.sent|..], r.sent[|s1.sent|..];
        assert r.sent[|s.sent|..] == a + b;
        assert CheckpointsOf(a + b) == CheckpointsOf(a) + CheckpointsOf(b);
        HighestCompose(s.lastDetected, s1.lastDetected, r.lastDetected, CheckpointsOf(a), CheckpointsOf(b));
      }
    }
  }

  lemma {:induction false} OwnPageDetects(al: Aggregated, s: Own, m: Moment, threshold: int)
    requires CanReplyOwn(m)
    ensures var r := OwnPage(al, s, m, threshold).0;
            && s.sent <= r.sent
            && IsHighest(s.lastDetected, r.lastDetected, CheckpointsOf(r.sent[|s.sent|..]))
  {
    if OwnPage(al, s, m, threshold).1.Polled? {
      var events := FilterLogs(al, _ => s.hwm, m.reply.value, m.enrich).value;
      assert (s.sent + events)[|s.sent|..] == events;
      MarkAllIsHighest(s.lastDetected, events);
    }
  }

  /** A listener joins the lead group only when it was found to be less than the threshold behind it. */
  lemma {:induction false} OwnJoinsReady(al: Aggregated, s: Own, moments: seq<Moment>, threshold: int)
    requires CanCatchUpOwn(moments)
    ensures var (r, status) := OwnRun(al, s, moments, threshold);
            && r.catchup == (s.catchup && !status.UpToDate?)
            && (status.UpToDate? ==> exists m :: m in moments && 0 <= m.headBlock < r.hwm + threshold)
    decreases |moments|
  {
    if moments != [] {
      var (s1, status) := OwnPage(al, s, moments[0], threshold);
      assert moments[0] in moments && forall m :: m in moments[1..] ==> m in moments;
      if !status.Stopped? && !status.UpToDate? {
        OwnJoinsReady(al, s1, moments[1..], threshold);
      }
    }
  }

  /** While the lead group stays where it is, and queries succeed, a listener joins it within as many pages as it is
      behind. */
  lemma {:induction false} OwnEnds(al: Aggregated, s: Own, moments: seq<Moment>, threshold: int, headBlock: nat)
    requires CanCatchUpOwn(moments) && threshold >= 1
    requires forall k :: 0 <= k < |moments| ==>
               && moments[k].headBlock == moments[k].ceiling == headBlock && !moments[k].removed
               && Answered(moments[k].reply, moments[k].enrich)
    requires moments != [] && |moments| > headBlock - s.hwm
    ensures var (r, status) := OwnRun(al, s, moments, threshold);
            && status == UpToDate && !r.catchup && ReadyForLead(headBlock, r.hwm, threshold)
            && r.hwm <= Max(s.hwm, headBlock)
    decreases |moments|
  {
    AnsweredFilters(al, _ => s.hwm, moments[0].reply.value, moments[0].enrich);
    var (s1, status) := OwnPage(al, s, moments[0], threshold);
    if status.Polled? {
      OwnEnds(al, s1, moments[1..], threshold, headBlock);
    }
  }

  // ----- The initial position of the lead group -----

  /** The position is the highest mark of the initial listeners, but never past the stable head. */
  method EstablishHeadBlock(listeners: seq<StreamListener>, chainHead: nat, gap: nat) returns (headBlock: int)
    requires forall i :: 0 <= i < |listeners| ==> listeners[i].hwmBlock >= 0
    ensures var stable := GetLogsPolling.StableHead(chainHead, gap);
            if listeners != [] && forall i :: 0 <= i < |listeners| ==> listeners[i].hwmBlock <= stable then
              && (exists i :: 0 <= i < |listeners| && listeners[i].hwmBlock == headBlock)
              && (forall i :: 0 <= i < |listeners| ==> listeners[i].hwmBlock <= headBlock)
            else headBlock == stable
  {
    var safeHead := chainHead - gap;
    if safeHead < 0 {
      safeHead := 0;
    }
    headBlock := -1;
    var i := 0;
    while i < |listeners|
      invariant i <= |listeners| && headBlock >= -1
      invariant headBlock == -1 || exists j :: 0 <= j < i && listeners[j].hwmBlock == headBlock
      invariant forall j :: 0 <= j < i ==> listeners[j].hwmBlock <= headBlock
    {
      if listeners[i].hwmBlock > headBlock {
        headBlock := listeners[i].hwmBlock;
      }
      i := i + 1;
    }
    assert |listeners| > 0 ==> listeners[0].hwmBlock <= headBlock;
    if headBlock < 0 || headBlock > safeHead {
      headBlock := safeHead;
    }
  }
}

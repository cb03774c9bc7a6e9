/**
 Matching the logs a node returns against many listeners at once, through an index by event signature.
 */
module AggregatedListener {
  import opened Blocks

  type Topic = nat
  type Address = nat
  type Id = nat

  datatype Filter = Filter(topic0: Topic, address: Option<Address>)

  datatype Listener = Listener(id: Id, filters: seq<Filter>)

  datatype Log = Log(
    blockNumber: nat, blockHash: Hash, transactionIndex: nat, logIndex: nat, topics: seq<Topic>, address: Address)

  datatype Update = Update(listener: Id, log: Log)

  predicate Matches(f: Filter, log: Log) {
    && log.topics != [] && log.topics[0] == f.topic0
    && (f.address.None? || f.address.value == log.address)
  }

  // Whether fetching the details of an event succeeds, for a listener, filter and log
  type Enricher = (Listener, Filter, Log) -> bool

  // ----- The reference: every listener looks at every log -----

  predicate Wants(l: Listener, hwm: int, log: Log) {
    log.blockNumber >= hwm && exists f :: f in l.filters && Matches(f, log)
  }

  function WantedBy(listeners: seq<Listener>, hwm: Id -> int, log: Log): seq<Update> {
    if listeners == [] then []
    else
      var rest := WantedBy(listeners[1..], hwm, log);
      if Wants(listeners[0], hwm(listeners[0].id), log) then [Update(listeners[0].id, log)] + rest else rest
  }

  function BruteForce(listeners: seq<Listener>, hwm: Id -> int, logs: seq<Log>): seq<Update> {
    if logs == [] then []
    else WantedBy(listeners, hwm, logs[0]) + BruteForce(listeners, hwm, logs[1..])
  }

  ghost predicate DistinctIds(listeners: seq<Listener>) {
    forall i, j :: 0 <= i < j < |listeners| ==> listeners[i].id != listeners[j].id
  }

  /** Exactly one update per listener and occurrence of a log it wants, and none for any other. */
  lemma {:induction false} ExactlyOnce(listeners: seq<Listener>, hwm: Id -> int, logs: seq<Log>, i: nat, log: Log)
    requires DistinctIds(listeners) && i < |listeners|
    ensures multiset(BruteForce(listeners, hwm, logs))[Update(listeners[i].id, log)]
         == if Wants(listeners[i], hwm(listeners[i].id), log) then multiset(logs)[log] else 0
  {
    if logs != [] {
      ExactlyOnce(listeners, hwm, logs[1..], i, log);
      assert logs == [logs[0]] + logs[1..];
      WantedByOnce(listeners, hwm, logs[0], i, log);
    }
  }

  lemma {:induction false} WantedByOnce(listeners: seq<Listener>, hwm: Id -> int, log: Log, i: nat, other: Log)
    requires DistinctIds(listeners) && i < |listeners|
    ensures multiset(WantedBy(listeners, hwm, log))[Update(listeners[i].id, other)]
         == if other == log && Wants(listeners[i], hwm(listeners[i].id), log) then 1 else 0
  {
    NotWantedByOthers(listeners[1..], hwm, log, listeners[0].id);
    if i > 0 {
      WantedByOnce(listeners[1..], hwm, log, i - 1, other);
    }
  }

  lemma {:induction false} NotWantedByOthers(listeners: seq<Listener>, hwm: Id -> int, log: Log, id: Id)
    requires forall i :: 0 <= i < |listeners| ==> listeners[i].id != id
    ensures forall other :: Update(id, other) !in WantedBy(listeners, hwm, log)
  {
    if listeners != [] {
      NotWantedByOthers(listeners[1..], hwm, log, id);
    }
  }

  ghost predicate SomeoneWants(listeners: seq<Listener>, hwm: Id -> int, u: Update) {
    exists i :: 0 <= i < |listeners| && listeners[i].id == u.listener && Wants(listeners[i], hwm(u.listener), u.log)
  }

  lemma {:induction false} BruteForceMember(listeners: seq<Listener>, hwm: Id -> int, logs: seq<Log>, u: Update)
    ensures u in BruteForce(listeners, hwm, logs) <==> u.log in logs && SomeoneWants(listeners, hwm, u)
  {
    if logs != [] {
      BruteForceMember(listeners, hwm, logs[1..], u);
      WantedByMember(listeners, hwm, logs[0], u);
    }
  }

  lemma {:induction false} WantedByMember(listeners: seq<Listener>, hwm: Id -> int, log: Log, u: Update)
    ensures u in WantedBy(listeners, hwm, log) <==> u.log == log && SomeoneWants(listeners, hwm, u)
  {
    if listeners != [] {
      WantedByMember(listeners[1..], hwm, log, u);
      SomeoneInRest(listeners, hwm, u);
    }
  }

  lemma {:induction false} SomeoneInRest(listeners: seq<Listener>, hwm: Id -> int, u: Update)
    requires listeners != []
    ensures SomeoneWants(listeners, hwm, u) <==>
              || (listeners[0].id == u.listener && Wants(listeners[0], hwm(u.listener), u.log))
              || SomeoneWants(listeners[1..], hwm, u)
  {
    var rest := listeners[1..];
    assert forall i :: 0 < i < |listeners| ==> listeners[i] == rest[i - 1];
    assert forall i :: 0 <= i < |rest| ==> rest[i] == listeners[i + 1];
  }

  // ----- The index -----

  datatype Aggregated = Aggregated(
    listeners: seq<Listener>, signatureSet: seq<Topic>, listenersByTopic0: map<Topic, seq<Listener>>)

  predicate HasTopic(l: Listener, topic: Topic) {
    exists f :: f in l.filters && f.topic0 == topic
  }

  function InterestedIn(listeners: seq<Listener>, topic: Topic): seq<Listener> {
    if listeners == [] then []
    else
      var last := listeners[|listeners| - 1];
      InterestedIn(listeners[..|listeners| - 1], topic) + if HasTopic(last, topic) then [last] else []
  }

  function Bucket(index: map<Topic, seq<Listener>>, topic: Topic): seq<Listener> {
    if topic in index then index[topic] else []
  }

  // Each bucket holds the listeners interested in a topic, once and in order. The signature set lists each topic
  // that has a bucket once, and a topic has a bucket exactly when somebody is interested.
  ghost predicate IsIndex(ag: Aggregated, listeners: seq<Listener>) {
    && ag.listeners == listeners
    && (forall t :: Bucket(ag.listenersByTopic0, t) == InterestedIn(listeners, t))
    && Signatures(ag.signatureSet, ag.listenersByTopic0)
  }

  ghost predicate Signatures(signatureSet: seq<Topic>, index: map<Topic, seq<Listener>>) {
    && (forall t :: t in signatureSet <==> t in index)
    && (forall t :: t in index ==> index[t] != [])
    && (forall i, j :: 0 <= i < j < |signatureSet| ==> signatureSet[i] != signatureSet[j])
  }

  method BuildAggregatedListener(listeners: seq<Listener>) returns (ag: Aggregated)
    ensures IsIndex(ag, listeners)
  {
    var signatureSet, index := [], map[];
    var i := 0;
    while i < |listeners|
      invariant i <= |listeners|
      invariant forall t :: Bucket(index, t) == InterestedIn(listeners[..i], t)
      invariant Signatures(signatureSet, index)
    {
      signatureSet, index := AddListener(listeners[i], signatureSet, index);
      forall t
        ensures Bucket(index, t) == InterestedIn(listeners[..i + 1], t)
      {
        assert listeners[..i + 1][..i] == listeners[..i];
      }
      i := i + 1;
    }
    assert listeners[..i] == listeners;
    ag := Aggregated(listeners, signatureSet, index);
  }

  // The index with one listener added to the buckets of some topics
  ghost predicate Extends(
    index': map<Topic, seq<Listener>>, index: map<Topic, seq<Listener>>, l: Listener, topics: set<Topic>)
  {
    forall t :: Bucket(index', t) == Bucket(index, t) + if t in topics then [l] else []
  }

  // The topics of the first j filters
  ghost predicate TopicsUpTo(l: Listener, j: nat, topics: set<Topic>)
    requires j <= |l.filters|
  {
    forall t :: t in topics <==> exists k :: 0 <= k < j && l.filters[k].topic0 == t
  }

  // The inner loop: add one listener to the bucket of each topic of its filters, once
  method AddListener(l: Listener, signatureSet: seq<Topic>, index: map<Topic, seq<Listener>>)
    returns (signatureSet': seq<Topic>, index': map<Topic, seq<Listener>>)
    requires Signatures(signatureSet, index)
    ensures forall t :: Bucket(index', t) == Bucket(index, t) + if HasTopic(l, t) then [l] else []
    ensures Signatures(signatureSet', index')
  {
    signatureSet', index' := signatureSet, index;
    var addedTopics: set<Topic> := {};
    var j := 0;
    while j < |l.filters|
      invariant j <= |l.filters| && TopicsUpTo(l, j, addedTopics)
      invariant Extends(index', index, l, addedTopics) && Signatures(signatureSet', index')
    {
      var topic := l.filters[j].topic0;
      TopicsStep(l, j, addedTopics);
      if topic !in addedTopics {
        SignaturesStep(signatureSet', index', topic, l);
        ExtendsStep(index', index, l, addedTopics, topic);
        if topic !in index' {
          signatureSet' := signatureSet' + [topic];
        }
        index' := index'[topic := Bucket(index', topic) + [l]];
        addedTopics := addedTopics + {topic};
      }
      j := j + 1;
    }
    AllTopics(l, addedTopics);
  }

  lemma {:induction false} TopicsStep(l: Listener, j: nat, topics: set<Topic>)
    requires j < |l.filters| && TopicsUpTo(l, j, topics)
    ensures TopicsUpTo(l, j + 1, topics + {l.filters[j].topic0})
    ensures l.filters[j].topic0 in topics ==> topics + {l.filters[j].topic0} == topics
  {
  }

  lemma {:induction false} SignaturesStep(
    signatureSet: seq<Topic>, index: map<Topic, seq<Listener>>, topic: Topic, l: Listener)
    requires Signatures(signatureSet, index)
    ensures Signatures(if topic in index then signatureSet else signatureSet + [topic],
                       index[topic := Bucket(index, topic) + [l]])
  {
  }

  lemma {:induction false} ExtendsStep(
    index': map<Topic, seq<Listener>>, index: map<Topic, seq<Listener>>, l: Listener, topics: set<Topic>, topic: Topic)
    requires Extends(index', index, l, topics) && topic !in topics
    ensures Extends(index'[topic := Bucket(index', topic) + [l]], index, l, topics + {topic})
  {
  }

  lemma {:induction false} AllTopics(l: Listener, topics: set<Topic>)
    requires TopicsUpTo(l, |l.filters|, topics)
    ensures forall t :: t in topics <==> HasTopic(l, t)
  {
    forall t
      ensures t in topics <==> HasTopic(l, t)
    {
      if HasTopic(l, t) {
        var f :| f in l.filters && f.topic0 == t;
        var k :| 0 <= k < |l.filters| && l.filters[k] == f;
      }
    }
  }

  // ----- Matching through the index -----

  // What one listener makes of a log: the first of its filters that matches decides
  datatype Emitted = NoMatch | Match | EnrichFailed

  function Emit(l: Listener, hwm: int, log: Log, enrich: Enricher, j: nat): Emitted
    requires j <= |l.filters|
    decreases |l.filters| - j
  {
    if j == |l.filters| then NoMatch
    else if log.blockNumber < hwm || !Matches(l.filters[j], log) then Emit(l, hwm, log, enrich, j + 1)
    else if enrich(l, l.filters[j], log) then Match
    else EnrichFailed
  }

  function EmitAll(listeners: seq<Listener>, hwm: Id -> int, log: Log, enrich: Enricher): Option<seq<Update>> {
    if listeners == [] then Some([])
    else
      var l := listeners[0];
      match Emit(l, hwm(l.id), log, enrich, 0)
      case EnrichFailed => None
      case NoMatch => EmitAll(listeners[1..], hwm, log, enrich)
      case Match =>
        var rest := EmitAll(listeners[1..], hwm, log, enrich);
        if rest.None? then None else Some([Update(l.id, log)] + rest.value)
  }

  function FilterLogs(ag: Aggregated, hwm: Id -> int, logs: seq<Log>, enrich: Enricher): Option<seq<Update>>
    requires forall i :: 0 <= i < |logs| ==> logs[i].topics != []
  {
    if logs == [] then Some([])
    else
      var first := EmitAll(Bucket(ag.listenersByTopic0, logs[0].topics[0]), hwm, logs[0], enrich);
      var rest := FilterLogs(ag, hwm, logs[1..], enrich);
      if first.None? || rest.None? then None else Some(first.value + rest.value)
  }

  // The loops of the program. The sort that follows them only permutes the updates.
  method FilterEnrich(
    ag: Aggregated, hwm: Id -> int, logs: seq<Log>, enrich: Enricher)
    returns (updates: Option<seq<Update>>)
    requires forall i :: 0 <= i < |logs| ==> logs[i].topics != []
    ensures updates == FilterLogs(ag, hwm, logs, enrich)
  {
    var found: seq<Update> := [];
    var i := 0;
    assert logs[i..] == logs;
    ThenNothing(FilterLogs(ag, hwm, logs, enrich));
    while i < |logs|
      invariant i <= |logs|
      invariant FilterLogs(ag, hwm, logs, enrich) == Then(found, FilterLogs(ag, hwm, logs[i..], enrich))
    {
      assert logs[i..][1..] == logs[i + 1..];
      var some := EmitToBucket(Bucket(ag.listenersByTopic0, logs[i].topics[0]), hwm, logs[i], enrich);
      if some.None? {
        return None;
      }
      ThenThen(found, some.value, FilterLogs(ag, hwm, logs[i + 1..], enrich));
      found := found + some.value;
      i := i + 1;
    }
    updates := Some(found);
    assert found + [] == found;
  }

  method EmitToBucket(
    listeners: seq<Listener>, hwm: Id -> int, log: Log, enrich: Enricher)
    returns (updates: Option<seq<Update>>)
    ensures updates == EmitAll(listeners, hwm, log, enrich)
  {
    var found: seq<Update> := [];
    var i := 0;
    assert listeners[i..] == listeners;
    ThenNothing(EmitAll(listeners, hwm, log, enrich));
    while i < |listeners|
      invariant i <= |listeners|
      invariant EmitAll(listeners, hwm, log, enrich) == Then(found, EmitAll(listeners[i..], hwm, log, enrich))
    {
      assert listeners[i..][1..] == listeners[i + 1..];
      var l := listeners[i];
      var j := 0;
      while j < |l.filters|
        invariant j <= |l.filters|
        invariant Emit(l, hwm(l.id), log, enrich, j) == Emit(l, hwm(l.id), log, enrich, 0)
        invariant EmitAll(listeners, hwm, log, enrich) == Then(found, EmitAll(listeners[i..], hwm, log, enrich))
      {
        if log.blockNumber >= hwm(l.id) && Matches(l.filters[j], log) {
          if !enrich(l, l.filters[j], log) {
            return None;
          }
          break;
        }
        j := j + 1;
      }
      if j < |l.filters| {
        ThenThen(found, [Update(l.id, log)], EmitAll(listeners[i + 1..], hwm, log, enrich));
        found := found + [Update(l.id, log)];
      }
      i := i + 1;
    }
    updates := Some(found);
    assert found + [] == found;
  }

  function Then(front: seq<Update>, rest: Option<seq<Update>>): Option<seq<Update>> {
    if rest.None? then None else Some(front + rest.value)
  }

  lemma {:induction false} ThenNothing(rest: Option<seq<Update>>)
    ensures Then([], rest) == rest
  {
    if rest.Some? {
      assert [] + rest.value == rest.value;
    }
  }

  lemma {:induction false} ThenThen(a: seq<Update>, b: seq<Update>, rest: Option<seq<Update>>)
    ensures Then(a, Then(b, rest)) == Then(a + b, rest)
  {
    if rest.Some? {
      assert a + (b + rest.value) == a + b + rest.value;
    }
  }

  // ----- The index refines the reference -----

  lemma {:induction false} EmitIsWants(l: Listener, hwm: int, log: Log, enrich: Enricher, j: nat)
    requires j <= |l.filters|
    ensures Emit(l, hwm, log, enrich, j).NoMatch? <==>
      log.blockNumber < hwm || forall k :: j <= k < |l.filters| ==> !Matches(l.filters[k], log)
    decreases |l.filters| - j
  {
    if j < |l.filters| {
      EmitIsWants(l, hwm, log, enrich, j + 1);
    }
  }

  lemma {:induction false} WantsByIndex(l: Listener, hwm: int, log: Log)
    ensures Wants(l, hwm, log) <==>
            log.blockNumber >= hwm && exists k :: 0 <= k < |l.filters| && Matches(l.filters[k], log)
  {
    if Wants(l, hwm, log) {
      var f :| f in l.filters && Matches(f, log);
      var k :| 0 <= k < |l.filters| && l.filters[k] == f;
    }
  }

  lemma {:induction false} EmitAllIsWantedBy(listeners: seq<Listener>, hwm: Id -> int, log: Log, enrich: Enricher)
    requires EmitAll(listeners, hwm, log, enrich).Some?
    ensures EmitAll(listeners, hwm, log, enrich).value == WantedBy(listeners, hwm, log)
  {
    if listeners != [] {
      var l := listeners[0];
      EmitIsWants(l, hwm(l.id), log, enrich, 0);
      WantsByIndex(l, hwm(l.id), log);
      EmitAllIsWantedBy(listeners[1..], hwm, log, enrich);
    }
  }

  lemma {:induction false} InterestedWant(listeners: seq<Listener>, hwm: Id -> int, log: Log)
    requires log.topics != []
    ensures WantedBy(InterestedIn(listeners, log.topics[0]), hwm, log) == WantedBy(listeners, hwm, log)
  {
    if listeners != [] {
      var front, last := listeners[..|listeners| - 1], listeners[|listeners| - 1];
      InterestedWant(front, hwm, log);
      WantedByAppend(front, [last], hwm, log);
      assert front + [last] == listeners;
      if HasTopic(last, log.topics[0]) {
        WantedByAppend(InterestedIn(front, log.topics[0]), [last], hwm, log);
      } else {
        assert InterestedIn(front, log.topics[0]) + [] == InterestedIn(front, log.topics[0]);
        assert WantedBy([last], hwm, log) == [];
      }
    }
  }

  lemma {:induction false} WantedByAppend(a: seq<Listener>, b: seq<Listener>, hwm: Id -> int, log: Log)
    ensures WantedBy(a + b, hwm, log) == WantedBy(a, hwm, log) + WantedBy(b, hwm, log)
  {
    if a == [] {
      assert a + b == b;
    } else {
      assert (a + b)[1..] == a[1..] + b;
      WantedByAppend(a[1..], b, hwm, log);
    }
  }

  /** Unless fetching details fails, matching through the index emits exactly what the reference emits. */
  lemma {:induction false} IndexRefinesBruteForce(
    ag: Aggregated, listeners: seq<Listener>, hwm: Id -> int, logs: seq<Log>, enrich: Enricher)
    requires IsIndex(ag, listeners)
    requires forall i :: 0 <= i < |logs| ==> logs[i].topics != []
    requires FilterLogs(ag, hwm, logs, enrich).Some?
    ensures FilterLogs(ag, hwm, logs, enrich).value == BruteForce(listeners, hwm, logs)
  {
    if logs != [] {
      IndexRefinesBruteForce(ag, listeners, hwm, logs[1..], enrich);
      EmitAllIsWantedBy(InterestedIn(listeners, logs[0].topics[0]), hwm, logs[0], enrich);
      InterestedWant(listeners, hwm, logs[0]);
    }
  }

  // ----- When fetching details fails -----

  // The first filter of the listener that matches a log at or above its mark is one whose details cannot be fetched
  predicate FailsFor(l: Listener, hwm: int, log: Log, enrich: Enricher) {
    && log.blockNumber >= hwm
    && exists k :: 0 <= k < |l.filters| && FirstMatch(l, log, k) && !enrich(l, l.filters[k], log)
  }

  predicate FirstMatch(l: Listener, log: Log, k: nat)
    requires k < |l.filters|
  {
    Matches(l.filters[k], log) && forall j :: 0 <= j < k ==> !Matches(l.filters[j], log)
  }

  predicate SomeoneFails(listeners: seq<Listener>, hwm: Id -> int, log: Log, enrich: Enricher) {
    exists l :: l in listeners && FailsFor(l, hwm(l.id), log, enrich)
  }

  lemma {:induction false} EmitFails(l: Listener, hwm: int, log: Log, enrich: Enricher, j: nat)
    requires j <= |l.filters| && forall k :: 0 <= k < j ==> !Matches(l.filters[k], log)
    ensures Emit(l, hwm, log, enrich, j).EnrichFailed? <==> FailsFor(l, hwm, log, enrich)
    decreases |l.filters| - j
  {
    if j < |l.filters| {
      if log.blockNumber < hwm || !Matches(l.filters[j], log) {
        if log.blockNumber < hwm {
          EmitIsWants(l, hwm, log, enrich, j);
        } else {
          EmitFails(l, hwm, log, enrich, j + 1);
        }
      } else {
        assert FirstMatch(l, log, j);
      }
    }
  }

  lemma {:induction false} EmitAllFails(listeners: seq<Listener>, hwm: Id -> int, log: Log, enrich: Enricher)
    ensures EmitAll(listeners, hwm, log, enrich).None? <==> SomeoneFails(listeners, hwm, log, enrich)
  {
    if listeners != [] {
      EmitFails(listeners[0], hwm(listeners[0].id), log, enrich, 0);
      EmitAllFails(listeners[1..], hwm, log, enrich);
      assert forall l :: l in listeners <==> l == listeners[0] || l in listeners[1..];
    }
  }

  lemma {:induction false} InterestedMember(listeners: seq<Listener>, topic: Topic)
    ensures forall l :: l in InterestedIn(listeners, topic) <==> l in listeners && HasTopic(l, topic)
  {
    if listeners != [] {
      var front, last := listeners[..|listeners| - 1], listeners[|listeners| - 1];
      InterestedMember(front, topic);
      assert listeners == front + [last];
    }
  }

  lemma {:induction false} MatchHasTopic(l: Listener, hwm: int, log: Log, enrich: Enricher)
    requires FailsFor(l, hwm, log, enrich) && log.topics != []
    ensures HasTopic(l, log.topics[0])
  {
    var k :| 0 <= k < |l.filters| && FirstMatch(l, log, k) && !enrich(l, l.filters[k], log);
    assert l.filters[k] in l.filters;
  }

  lemma {:induction false} LogFails(
    ag: Aggregated, listeners: seq<Listener>, hwm: Id -> int, log: Log, enrich: Enricher)
    requires IsIndex(ag, listeners) && log.topics != []
    ensures EmitAll(Bucket(ag.listenersByTopic0, log.topics[0]), hwm, log, enrich).None? <==>
            SomeoneFails(listeners, hwm, log, enrich)
  {
    var bucket := InterestedIn(listeners, log.topics[0]);
    EmitAllFails(bucket, hwm, log, enrich);
    InterestedMember(listeners, log.topics[0]);
    forall l | l in listeners && FailsFor(l, hwm(l.id), log, enrich)
      ensures l in bucket
    {
      MatchHasTopic(l, hwm(l.id), log, enrich);
    }
  }

  /** No event is emitted at all, if and only if there is a log, and a listener whose mark is not past it, such that the
      details cannot be fetched for the first filter of the listener that matches the log. */
  lemma {:induction false} FilterFailsExactly(
    ag: Aggregated, listeners: seq<Listener>, hwm: Id -> int, logs: seq<Log>, enrich: Enricher)
    requires IsIndex(ag, listeners) && forall i :: 0 <= i < |logs| ==> logs[i].topics != []
    ensures FilterLogs(ag, hwm, logs, enrich).None? <==>
              exists g :: g in logs && SomeoneFails(listeners, hwm, g, enrich)
  {
    if logs != [] {
      LogFails(ag, listeners, hwm, logs[0], enrich);
      FilterFailsExactly(ag, listeners, hwm, logs[1..], enrich);
      assert forall g :: g in logs <==> g == logs[0] || g in logs[1..];
    }
  }

  // ----- The query sent to the node -----

  datatype Query = Query(fromBlock: int, toBlock: int, topics: seq<Topic>, address: Option<Address>)

  // The node is only asked for one address when there is one listener, with one filter, for that address
  function RangeQuery(ag: Aggregated, fromBlock: int, toBlock: int): Query {
    Query(fromBlock, toBlock, ag.signatureSet,
          if |ag.listeners| == 1 && |ag.listeners[0].filters| == 1 then ag.listeners[0].filters[0].address else None)
  }

  predicate Passes(q: Query, log: Log) {
    && q.fromBlock <= log.blockNumber <= q.toBlock
    && log.topics != [] && log.topics[0] in q.topics
    && (q.address.None? || q.address.value == log.address)
  }

  lemma {:induction false} InterestedNotEmpty(listeners: seq<Listener>, topic: Topic, i: nat)
    requires i < |listeners| && HasTopic(listeners[i], topic)
    ensures InterestedIn(listeners, topic) != []
  {
    if i < |listeners| - 1 {
      InterestedNotEmpty(listeners[..|listeners| - 1], topic, i);
    }
  }

  /** The query excludes no log in its range that any listener wants. */
  lemma {:induction false} QueryExcludesNone(
    ag: Aggregated, listeners: seq<Listener>, fromBlock: int, toBlock: int, hwm: int, i: nat, log: Log)
    requires IsIndex(ag, listeners) && i < |listeners| && Wants(listeners[i], hwm, log)
    requires fromBlock <= log.blockNumber <= toBlock
    ensures Passes(RangeQuery(ag, fromBlock, toBlock), log)
  {
    var f :| f in listeners[i].filters && Matches(f, log);
    assert HasTopic(listeners[i], log.topics[0]);
    InterestedNotEmpty(listeners, log.topics[0], i);
    assert Bucket(ag.listenersByTopic0, log.topics[0]) != [];
  }

  /** The query asks for no more than it has to: a log that passes has the signature of some filter, and with a single
      filter it is one that the filter matches. */
  lemma {:induction false} QueryIsNarrow(
    ag: Aggregated, listeners: seq<Listener>, fromBlock: int, toBlock: int, log: Log)
    requires IsIndex(ag, listeners) && Passes(RangeQuery(ag, fromBlock, toBlock), log)
    ensures fromBlock <= log.blockNumber <= toBlock && log.topics != []
    ensures exists l :: l in listeners && HasTopic(l, log.topics[0])
    ensures |listeners| == 1 && |listeners[0].filters| == 1 ==> Matches(listeners[0].filters[0], log)
  {
    var topic := log.topics[0];
    assert topic in ag.listenersByTopic0 && Bucket(ag.listenersByTopic0, topic) != [];
    InterestedMember(listeners, topic);
    var l := InterestedIn(listeners, topic)[0];
    assert l in InterestedIn(listeners, topic);
  }

  function Select(q: Query, logs: seq<Log>): (r: seq<Log>)
    ensures forall i :: 0 <= i < |r| ==> Passes(q, r[i])
  {
    if logs == [] then []
    else
      var rest := Select(q, logs[1..]);
      if Passes(q, logs[0]) then [logs[0]] + rest else rest
  }

  function InRange(fromBlock: int, toBlock: int, logs: seq<Log>): seq<Log> {
    if logs == [] then []
    else
      var rest := InRange(fromBlock, toBlock, logs[1..]);
      if fromBlock <= logs[0].blockNumber <= toBlock then [logs[0]] + rest else rest
  }

  /** End to end: one range query through the node's filter, and the index, emits exactly what the reference
      emits from all the logs in the range. */
  lemma {:induction false} RangeEventsExact(
    ag: Aggregated, listeners: seq<Listener>, fromBlock: int, toBlock: int, hwm: Id -> int, logs: seq<Log>,
    enrich: Enricher)
    requires IsIndex(ag, listeners)
    requires FilterLogs(ag, hwm, Select(RangeQuery(ag, fromBlock, toBlock), logs), enrich).Some?
    ensures FilterLogs(ag, hwm, Select(RangeQuery(ag, fromBlock, toBlock), logs), enrich).value
         == BruteForce(listeners, hwm, InRange(fromBlock, toBlock, logs))
  {
    var q := RangeQuery(ag, fromBlock, toBlock);
    IndexRefinesBruteForce(ag, listeners, hwm, Select(q, logs), enrich);
    SelectKeepsWanted(ag, listeners, fromBlock, toBlock, hwm, logs);
  }

  lemma {:induction false} SelectKeepsWanted(
    ag: Aggregated, listeners: seq<Listener>, fromBlock: int, toBlock: int, hwm: Id -> int, logs: seq<Log>)
    requires IsIndex(ag, listeners)
    ensures BruteForce(listeners, hwm, Select(RangeQuery(ag, fromBlock, toBlock), logs))
         == BruteForce(listeners, hwm, InRange(fromBlock, toBlock, logs))
  {
    if logs != [] {
      var q := RangeQuery(ag, fromBlock, toBlock);
      SelectKeepsWanted(ag, listeners, fromBlock, toBlock, hwm, logs[1..]);
      var selected, ranged := Select(q, logs[1..]), InRange(fromBlock, toBlock, logs[1..]);
      if fromBlock <= logs[0].blockNumber <= toBlock {
        assert ([logs[0]] + ranged)[1..] == ranged;
        assert ([logs[0]] + selected)[1..] == selected;
        if !Passes(q, logs[0]) {
          ExcludedUnwanted(ag, listeners, fromBlock, toBlock, hwm, logs[0], listeners);
          assert [] + selected == selected;
        }
      } else {
        assert [] + selected == selected && [] + ranged == ranged;
      }
    }
  }

  lemma {:induction false} ExcludedUnwanted(
    ag: Aggregated, listeners: seq<Listener>, fromBlock: int, toBlock: int, hwm: Id -> int, log: Log,
    some: seq<Listener>)
    requires IsIndex(ag, listeners) && forall i :: 0 <= i < |some| ==> some[i] in listeners
    requires fromBlock <= log.blockNumber <= toBlock && !Passes(RangeQuery(ag, fromBlock, toBlock), log)
    ensures WantedBy(some, hwm, log) == []
  {
    if some != [] {
      ExcludedUnwanted(ag, listeners, fromBlock, toBlock, hwm, log, some[1..]);
      var i :| 0 <= i < |listeners| && listeners[i] == some[0];
      if Wants(some[0], hwm(some[0].id), log) {
        QueryExcludesNone(ag, listeners, fromBlock, toBlock, hwm(some[0].id), i, log);
      }
    }
  }
}

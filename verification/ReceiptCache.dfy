/**
 The cache of transaction receipts, filled by fetches that run in the background, and reset when the canonical
 chain changes.
 */
module ReceiptCache {
  import opened Blocks

  type TxHash = nat
  type FetchId = nat

  // readAt is the time the node was asked
  datatype Receipt = Receipt(tx: TxHash, blockHash: Hash, readAt: nat)

  // ----- What the operations compute -----

  function Stored(cache: map<TxHash, Receipt>, receipts: seq<Receipt>): map<TxHash, Receipt> {
    if receipts == [] then cache
    else
      var last := receipts[|receipts| - 1];
      Stored(cache, receipts[..|receipts| - 1])[last.tx := last]
  }

  // ----- Any number of fetches, with resets in between -----

  datatype Fetch = Fetch(generation: nat, read: seq<Receipt>)

  datatype State = State(
    now: nat, lastReset: nat, receipts: map<TxHash, Receipt>, generation: nat, fetches: map<FetchId, Fetch>)

  datatype Step =
    | Reset
    | Begin(id: FetchId)
    | ReadCached(id: FetchId, tx: TxHash)
    | ReadNode(id: FetchId, answers: seq<(TxHash, Hash)>)
    | Complete(id: FetchId)
    | Fail(id: FetchId)
    | Evict(tx: TxHash)

  predicate Enabled(s: State, step: Step) {
    match step
    case Reset => true
    case Begin(id) => id !in s.fetches
    case ReadCached(id, tx) => id in s.fetches && tx in s.receipts
    case ReadNode(id, _) => id in s.fetches
    case Complete(id) => id in s.fetches
    case Fail(id) => id in s.fetches
    case Evict(tx) => tx in s.receipts
  }

  function FromNode(answers: seq<(TxHash, Hash)>, now: nat): seq<Receipt> {
    seq(|answers|, i requires 0 <= i < |answers| => Receipt(answers[i].0, answers[i].1, now))
  }

  function Apply(s: State, step: Step): State
    requires Enabled(s, step)
  {
    match step
    case Reset => s.(lastReset := s.now, receipts := map[], generation := s.generation + 1)
    case Begin(id) => s.(fetches := s.fetches[id := Fetch(s.generation, [])])
    case ReadCached(id, tx) =>
      s.(fetches := s.fetches[id := s.fetches[id].(read := s.fetches[id].read + [s.receipts[tx]])])
    case ReadNode(id, answers) =>
      s.(fetches := s.fetches[id := s.fetches[id].(read := s.fetches[id].read + FromNode(answers, s.now))],
        now := s.now + 1)
    case Complete(id) =>
      s.(receipts := if s.fetches[id].generation == s.generation then Stored(s.receipts, s.fetches[id].read)
        else s.receipts,
         fetches := s.fetches - {id})
    case Fail(id) => s.(fetches := s.fetches - {id})
    case Evict(tx) => s.(receipts := s.receipts - {tx})
  }

  // A receipt is fresh when it was read from the node after the latest reset
  ghost predicate Inv(s: State) {
    && s.lastReset <= s.now
    && (forall tx :: tx in s.receipts ==> s.receipts[tx].tx == tx && s.lastReset <= s.receipts[tx].readAt < s.now)
    && (forall id :: id in s.fetches ==> FetchOk(s, s.fetches[id]))
  }

  ghost predicate FetchOk(s: State, f: Fetch) {
    && f.generation <= s.generation
    && (f.generation == s.generation ==> forall i :: 0 <= i < |f.read| ==> s.lastReset <= f.read[i].readAt < s.now)
  }

  lemma {:induction false} StoredMember(cache: map<TxHash, Receipt>, receipts: seq<Receipt>, tx: TxHash)
    requires tx in Stored(cache, receipts)
    ensures var r := Stored(cache, receipts)[tx];
            (tx in cache && r == cache[tx]) || exists i :: 0 <= i < |receipts| && receipts[i] == r && r.tx == tx
  {
    if receipts != [] {
      var front, last := receipts[..|receipts| - 1], receipts[|receipts| - 1];
      if last.tx != tx {
        StoredMember(cache, front, tx);
        assert forall i :: 0 <= i < |front| ==> front[i] == receipts[i];
      }
    }
  }

  // The i-th receipt is the last one of its transaction
  predicate IsLatest(receipts: seq<Receipt>, i: nat)
    requires i < |receipts|
  {
    forall j :: i < j < |receipts| ==> receipts[j].tx != receipts[i].tx
  }

  lemma {:induction false} StoredExactly(cache: map<TxHash, Receipt>, receipts: seq<Receipt>)
    ensures forall i :: 0 <= i < |receipts| && IsLatest(receipts, i) ==>
              receipts[i].tx in Stored(cache, receipts) && Stored(cache, receipts)[receipts[i].tx] == receipts[i]
    ensures forall tx :: (forall i :: 0 <= i < |receipts| ==> receipts[i].tx != tx) ==>
              (tx in Stored(cache, receipts) <==> tx in cache)
              && (tx in cache ==> Stored(cache, receipts)[tx] == cache[tx])
  {
    if receipts != [] {
      var front, last := receipts[..|receipts| - 1], receipts[|receipts| - 1];
      StoredExactly(cache, front);
      forall i | 0 <= i < |receipts| && IsLatest(receipts, i)
        ensures receipts[i].tx in Stored(cache, receipts) && Stored(cache, receipts)[receipts[i].tx] == receipts[i]
      {
        if i < |front| {
          assert IsLatest(front, i) && receipts[|receipts| - 1].tx != receipts[i].tx;
        }
      }
      forall tx | forall i :: 0 <= i < |receipts| ==> receipts[i].tx != tx
        ensures (tx in Stored(cache, receipts) <==> tx in cache)
                && (tx in cache ==> Stored(cache, receipts)[tx] == cache[tx])
      {
        assert receipts[|receipts| - 1].tx != tx && forall i :: 0 <= i < |front| ==> front[i] == receipts[i];
      }
    }
  }

  /** A fetch of the current generation leaves each receipt it read in the cache, the latest if it read several of one
      transaction, and no other receipt changes. */
  lemma {:induction false} CompletedFetchIsCached(s: State, id: FetchId)
    requires id in s.fetches && s.fetches[id].generation == s.generation
    ensures var (s', read) := (Apply(s, Complete(id)), s.fetches[id].read);
            && (forall i :: 0 <= i < |read| && IsLatest(read, i) ==>
                 read[i].tx in s'.receipts && s'.receipts[read[i].tx] == read[i])
            && (forall tx :: (forall i :: 0 <= i < |read| ==> read[i].tx != tx) ==>
                 (tx in s'.receipts <==> tx in s.receipts)
                 && (tx in s.receipts ==> s'.receipts[tx] == s.receipts[tx]))
  {
    StoredExactly(s.receipts, s.fetches[id].read);
  }

  /** Every step keeps each receipt in the cache fresh. */
  lemma {:induction false} StepKeepsFresh(s: State, step: Step)
    requires Inv(s) && Enabled(s, step)
    ensures Inv(Apply(s, step))
  {
    var s' := Apply(s, step);
    if step.Complete? {
      forall tx | tx in s'.receipts
        ensures s'.receipts[tx].tx == tx && s'.lastReset <= s'.receipts[tx].readAt < s'.now
      {
        if s.fetches[step.id].generation == s.generation {
          StoredMember(s.receipts, s.fetches[step.id].read, tx);
        }
      }
    }
  }

  function Initial(): State {
    State(0, 0, map[], 0, map[])
  }

  ghost predicate IsRun(s: State, steps: seq<Step>, s': State)
    decreases |steps|
  {
    if steps == [] then s' == s
    else Enabled(s, steps[0]) && IsRun(Apply(s, steps[0]), steps[1..], s')
  }

  /** With any number of fetches under way and resets in between, including fetches that read through the cache,
      every receipt in the cache was read from the node after the latest reset. */
  lemma {:induction false} CacheStaysFresh(s: State, steps: seq<Step>, s': State)
    requires Inv(s) && IsRun(s, steps, s')
    ensures Inv(s')
    ensures forall tx :: tx in s'.receipts ==> s'.lastReset <= s'.receipts[tx].readAt < s'.now
    decreases |steps|
  {
    if steps != [] {
      StepKeepsFresh(s, steps[0]);
      CacheStaysFresh(Apply(s, steps[0]), steps[1..], s');
    }
  }

  /** So it does over every run from the empty cache. */
  lemma {:induction false} EveryRunStaysFresh(steps: seq<Step>, s': State)
    requires IsRun(Initial(), steps, s')
    ensures Inv(s')
    ensures forall tx :: tx in s'.receipts ==> s'.lastReset <= s'.receipts[tx].readAt < s'.now
  {
    CacheStaysFresh(Initial(), steps, s');
  }

  /** A fetch that began before a reset never changes the cache, whenever it completes. */
  lemma {:induction false} StaleFetchStoresNothing(s: State, steps: seq<Step>, s': State, id: FetchId)
    requires Inv(s) && IsRun(s, steps, s') && id in s.fetches && s.fetches[id].generation < s.generation
    requires forall k :: 0 <= k < |steps| ==>
             !(steps[k].Complete? && steps[k].id == id) && !(steps[k].Fail? && steps[k].id == id)
    ensures id in s'.fetches && Apply(s', Complete(id)).receipts == s'.receipts
    decreases |steps|
  {
    if steps != [] {
      StepKeepsFresh(s, steps[0]);
      StaleFetchStoresNothing(Apply(s, steps[0]), steps[1..], s', id);
    }
  }

  // ----- The cache -----

  class Cache {
    var receipts: map<TxHash, Receipt>
    var generation: nat

    ghost predicate Represents(s: State)
      reads this
    {
      receipts == s.receipts && generation == s.generation
    }

    constructor ()
      ensures receipts == map[] && generation == 0
    {
      receipts, generation := map[], 0;
    }

    method Reset()
      modifies this
      ensures receipts == map[] && generation == old(generation) + 1
      ensures forall s: State :: old(Represents(s)) ==> Represents(Apply(s, Step.Reset))
    {
      receipts := map[];
      generation := generation + 1;
    }

    // What a fetch read is only stored if the cache was not reset since the fetch began
    method Store(read: seq<Receipt>, generation: nat)
      modifies this`receipts
      ensures receipts == if generation == this.generation then Stored(old(receipts), read) else old(receipts)
      ensures forall s: State, id ::
                old(Represents(s)) && id in s.fetches && s.fetches[id] == Fetch(generation, read) ==>
                  Represents(Apply(s, Complete(id)))
    {
      if generation != this.generation {
        return;
      }
      var i := 0;
      while i < |read|
        invariant i <= |read| && receipts == Stored(old(receipts), read[..i])
      {
        assert read[..i + 1][..i] == read[..i];
        receipts := receipts[read[i].tx := read[i]];
        i := i + 1;
      }
      assert read[..i] == read;
    }

    method Get(tx: TxHash) returns (receipt: Option<Receipt>)
      ensures receipt == if tx in receipts then Some(receipts[tx]) else None
      ensures forall s: State, id :: Represents(s) && id in s.fetches ==>
                && (receipt.Some? <==> Enabled(s, ReadCached(id, tx)))
                && (receipt.Some? ==>
                     Apply(s, ReadCached(id, tx)).fetches[id].read == s.fetches[id].read + [receipt.value])
    {
      receipt := if tx in receipts then Some(receipts[tx]) else None;
    }

    // What other routines do with the cache
    method Meanwhile(others: seq<Other>)
      modifies this
      ensures Content(receipts, generation) == AfterAll(old(Content(receipts, generation)), others)
    {
      var i := 0;
      while i < |others|
        invariant i <= |others|
        invariant Content(receipts, generation) == AfterAll(old(Content(receipts, generation)), others[..i])
      {
        assert others[..i + 1][..i] == others[..i];
        match others[i] {
          case Resets => Reset();
          case Stores(read, readFor) => Store(read, readFor);
        }
        i := i + 1;
      }
      assert others[..i] == others;
    }

    // A fetch that asks for one receipt after the other, each through the cache, which others can change in between.
    // A receipt that the node does not have leaves a gap, which is not stored, and an error ends the fetch.
    method FetchEach(txs: seq<TxHash>, node: nat -> NodeReceipt, others: nat -> seq<Other>)
      returns (read: Option<seq<Option<Receipt>>>)
      modifies this
      ensures read.None? <==>
                exists i :: 0 <= i < |txs| && Fails(old(Content(receipts, generation)), txs, node, others, i)
      ensures read.Some? ==> |read.value| == |txs| && forall i :: 0 <= i < |txs| ==>
                read.value[i] == Turn(ContentAt(old(Content(receipts, generation)), others, i + 1), txs[i], node(i))
      ensures read.Some? ==>
                Content(receipts, generation) == ContentAt(old(Content(receipts, generation)), others, |txs|)
    {
      var found: seq<Option<Receipt>> := [];
      ghost var start := Content(receipts, generation);
      var i := 0;
      while i < |txs|
        invariant i == |found| <= |txs| && Content(receipts, generation) == ContentAt(start, others, i)
        invariant forall j :: 0 <= j < i ==>
                    && !Fails(start, txs, node, others, j)
                    && found[j] == Turn(ContentAt(start, others, j + 1), txs[j], node(j))
      {
        Meanwhile(others(i));
        var receipt := Get(txs[i]);
        if receipt.None? {
          if node(i).Error? {
            assert Fails(start, txs, node, others, i);
            return None;
          }
          receipt := ReceiptOf(node(i));
        }
        found := found + [receipt];
        i := i + 1;
      }
      read := Some(found);
    }
  }

  // ----- A fetch, with others at the cache in between -----

  datatype Content = Content(receipts: map<TxHash, Receipt>, generation: nat)

  datatype Other = Resets | Stores(read: seq<Receipt>, generation: nat)

  function After(c: Content, o: Other): Content {
    match o
    case Resets => Content(map[], c.generation + 1)
    case Stores(read, generation) => if generation == c.generation then c.(receipts := Stored(c.receipts, read)) else c
  }

  function AfterAll(c: Content, others: seq<Other>): Content {
    if others == [] then c else After(AfterAll(c, others[..|others| - 1]), others[|others| - 1])
  }

  // What the cache holds in the n-th turn of a fetch
  function ContentAt(c: Content, others: nat -> seq<Other>, n: nat): Content {
    if n == 0 then c else AfterAll(ContentAt(c, others, n - 1), others(n - 1))
  }

  datatype NodeReceipt = Present(receipt: Receipt) | Absent | Error

  function ReceiptOf(r: NodeReceipt): Option<Receipt> {
    if r.Present? then Some(r.receipt) else None
  }

  function Turn(c: Content, tx: TxHash, r: NodeReceipt): Option<Receipt> {
    if tx in c.receipts then Some(c.receipts[tx]) else ReceiptOf(r)
  }

  predicate Fails(c: Content, txs: seq<TxHash>, node: nat -> NodeReceipt, others: nat -> seq<Other>, i: nat)
    requires i < |txs|
  {
    txs[i] !in ContentAt(c, others, i + 1).receipts && node(i).Error?
  }

  function ContentOf(s: State): Content {
    Content(s.receipts, s.generation)
  }

  /** What others do is a reset, or the completion of their own fetch. */
  lemma {:induction false} OtherIsStep(s: State, o: Other, id: FetchId)
    requires Inv(s) && (o.Stores? ==> id in s.fetches && s.fetches[id] == Fetch(o.generation, o.read))
    ensures var step := if o.Resets? then Step.Reset else Complete(id);
            Enabled(s, step) && ContentOf(Apply(s, step)) == After(ContentOf(s), o) && Inv(Apply(s, step))
  {
    StepKeepsFresh(s, if o.Resets? then Step.Reset else Complete(id));
  }

  /** A turn of a fetch is a read from the cache, or a read from the node, which adds what the turn finds, and leaves
      the cache as it is. A receipt that the node does not have is no step. */
  lemma {:induction false} TurnIsStep(s: State, id: FetchId, tx: TxHash, r: NodeReceipt, blockHash: Hash)
    requires Inv(s) && id in s.fetches && (r.Present? ==> r.receipt == Receipt(tx, blockHash, s.now))
    requires Turn(ContentOf(s), tx, r).Some?
    ensures var step := if tx in s.receipts then ReadCached(id, tx) else ReadNode(id, [(tx, blockHash)]);
            && Enabled(s, step) && Inv(Apply(s, step)) && ContentOf(Apply(s, step)) == ContentOf(s)
            && Apply(s, step).fetches[id].generation == s.fetches[id].generation
            && Apply(s, step).fetches[id].read == s.fetches[id].read + [Turn(ContentOf(s), tx, r).value]
  {
    var step := if tx in s.receipts then ReadCached(id, tx) else ReadNode(id, [(tx, blockHash)]);
    StepKeepsFresh(s, step);
    assert FromNode([(tx, blockHash)], s.now) == [Receipt(tx, blockHash, s.now)];
  }
}

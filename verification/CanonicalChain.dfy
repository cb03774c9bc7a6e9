/**
 The block listener's in-memory view of the head of the canonical chain.
 */
module CanonicalChain {
  import opened Blocks

  // ----- What the operations compute -----

  // receiptGeneration counts the resets of the receipt cache
  datatype View = View(
    chain: seq<Block>, highestBlock: nat, highestBlockSet: bool, headBlockInfo: Option<Block>, receiptGeneration: nat)

  function NoteHead(v: View, b: Block): View {
    if b.number > v.highestBlock then
      v.(highestBlock := b.number, highestBlockSet := true, headBlockInfo := Some(b))
    else if b.number == v.highestBlock then
      v.(headBlockInfo := Some(b))
    else
      v
  }

  // How many blocks, counted from the front, are left when winding back from the tail to a number
  // that is not above n
  function Seek(chain: seq<Block>, n: nat): (k: nat)
    ensures k <= |chain|
  {
    if chain == [] then 0
    else if chain[|chain| - 1].number <= n then |chain|
    else Seek(chain[..|chain| - 1], n)
  }

  // The length of the list up to and including the last block that still matches the node's answer (zero
  // when there is none, or when the query is cancelled), and the time after the queries
  function LastValid(chain: seq<Block>, node: Script, t: nat): (r: (nat, nat))
    ensures r.0 <= |chain| && t <= r.1
  {
    if chain == [] then (0, t)
    else
      var last := chain[|chain| - 1];
      var reply := node.Answer(t, last.number);
      if reply.Failed? then (0, t + 1)
      else if reply.Found? && reply.block.hash == last.hash then (|chain|, t + 1)
      else LastValid(chain[..|chain| - 1], node, t + 1)
  }

  datatype Extended = Extended(view: View, cancelled: bool, t: nat)

  // Append the blocks the node serves from "next" on, until it has no more or one does not link
  function Extend(v: View, next: nat, expectedParent: Option<Hash>, node: Script, t: nat): Extended
    decreases if next <= MAX_BLOCK then MAX_BLOCK - next + 1 else 0
  {
    match node.Answer(t, next)
    case Failed => Extended(v, true, t + 1)
    case Missing => Extended(v, false, t + 1)
    case Found(b) =>
      if expectedParent.Some? && b.parentHash != expectedParent.value then Extended(v, false, t + 1)
      else Extend(NoteHead(v.(chain := v.chain + [b]), b), next + 1, Some(b.hash), node, t + 1)
  }

  // notify is the position, in the new list, of the first block to notify about
  datatype Outcome = Outcome(view: View, notify: Option<nat>, cancelled: bool, t: nat)

  function Rebuild(v: View, node: Script, t: nat): (o: Outcome)
    requires v.chain != []
    ensures o.notify.Some? ==> o.notify.value < |o.view.chain|
  {
    var (kept, t1) := LastValid(v.chain, node, t);
    RebuildFrom(v, kept, node, t1)
  }

  // Replace everything behind the first "kept" blocks
  function RebuildFrom(v: View, kept: nat, node: Script, t: nat): (o: Outcome)
    requires v.chain != [] && kept <= |v.chain|
    ensures o.notify.Some? ==> o.notify.value < |o.view.chain|
  {
    var v1 := v.(chain := v.chain[..kept], receiptGeneration := v.receiptGeneration + 1);
    var e :=
      if kept > 0 then Extend(v1, v.chain[kept - 1].number + 1, Some(v.chain[kept - 1].hash), node, t)
      else Extend(v1, v.chain[0].number, None, node, t);
    Outcome(e.view, if e.cancelled || |e.view.chain| <= kept then None else Some(kept), e.cancelled, e.t)
  }

  function LastN(blocks: seq<Block>, n: nat): seq<Block> {
    if |blocks| > n then blocks[|blocks| - n..] else blocks
  }

  // k is the number of blocks in front of the one to add
  function HandleNew(v: View, b: Block, k: nat, monitored: nat, node: Script, t: nat): (o: Outcome)
    requires k <= |v.chain| && monitored > 0
    ensures o.notify.Some? ==> o.notify.value < |o.view.chain|
  {
    if k > 0 && !v.chain[k - 1].IsParentOf(b) then Rebuild(v, node, t)
    else
      var w := Insert(v, b, k, monitored);
      Outcome(w, Some(|w.chain| - 1), false, t)
  }

  function Insert(v: View, b: Block, k: nat, monitored: nat): (w: View)
    requires k <= |v.chain| && monitored > 0
    ensures w.chain != [] && w.chain[|w.chain| - 1] == b
  {
    var reset := k == 0 || k < |v.chain|;
    v.(chain := LastN(v.chain[..k] + [b], monitored),
       receiptGeneration := v.receiptGeneration + if reset then 1 else 0)
  }

  function Reconcile(v: View, b: Block, monitored: nat, node: Script, t: nat): (o: Outcome)
    requires monitored > 0
    ensures o.notify.Some? ==> o.notify.value < |o.view.chain|
  {
    if Holds(v.chain, b) then Outcome(NoteHead(v, b), None, false, t)
    else HandleNew(NoteHead(v, b), b, AddAfter(v.chain, b), monitored, node, t)
  }

  lemma {:induction false} ReconcileNew(v: View, b: Block, monitored: nat, node: Script, t: nat)
    requires monitored > 0 && !Holds(v.chain, b)
    ensures Reconcile(v, b, monitored, node, t)
         == HandleNew(NoteHead(v, b), b, AddAfter(v.chain, b), monitored, node, t)
  {
  }

  // The block is met while winding back from the tail
  predicate Holds(chain: seq<Block>, b: Block) {
    var k := Seek(chain, b.number);
    k > 0 && chain[k - 1] == b
  }

  // How many blocks stay in front of the block that is added
  function AddAfter(chain: seq<Block>, b: Block): (k: nat)
    ensures k <= |chain|
  {
    var k := Seek(chain, b.number);
    if k > 0 && chain[k - 1].number == b.number then k - 1 else k
  }

  // ----- What holds on any node answers -----

  // The list is hash-linked with consecutive numbers, the head height is never below it, and the block that is
  // held for the head is of that height
  ghost predicate Inv(v: View) {
    && Linked(v.chain)
    && (v.headBlockInfo.Some? ==> v.headBlockInfo.value.number == v.highestBlock)
    && forall i :: 0 <= i < |v.chain| ==> v.chain[i].number <= v.highestBlock
  }

  lemma {:induction false} ExtendKeepsInv(v: View, next: nat, expectedParent: Option<Hash>, node: Script, t: nat)
    requires Inv(v)
    requires v.chain != [] ==>
             next == v.chain[|v.chain| - 1].number + 1 && expectedParent == Some(v.chain[|v.chain| - 1].hash)
    ensures Inv(Extend(v, next, expectedParent, node, t).view)
    ensures v.chain <= Extend(v, next, expectedParent, node, t).view.chain
    ensures v.highestBlock <= Extend(v, next, expectedParent, node, t).view.highestBlock
    decreases if next <= MAX_BLOCK then MAX_BLOCK - next + 1 else 0
  {
    if node.Answer(t, next).Found? {
      var b := node.Answer(t, next).block;
      if expectedParent == None || b.parentHash == expectedParent.value {
        ExtendKeepsInv(NoteHead(v.(chain := v.chain + [b]), b), next + 1, Some(b.hash), node, t + 1);
      }
    }
  }

  lemma {:induction false} RebuildFromKeepsInv(v: View, kept: nat, node: Script, t: nat)
    requires Inv(v) && v.chain != [] && kept <= |v.chain|
    ensures var o := RebuildFrom(v, kept, node, t);
            && Inv(o.view) && v.highestBlock <= o.view.highestBlock
            && v.chain[..kept] <= o.view.chain
  {
    var v1 := v.(chain := v.chain[..kept], receiptGeneration := v.receiptGeneration + 1);
    if kept > 0 {
      ExtendKeepsInv(v1, v.chain[kept - 1].number + 1, Some(v.chain[kept - 1].hash), node, t);
    } else {
      ExtendKeepsInv(v1, v.chain[0].number, None, node, t);
    }
  }

  lemma {:induction false} HandleNewKeepsInv(v: View, b: Block, k: nat, monitored: nat, node: Script, t: nat)
    requires Inv(v) && monitored > 0 && k <= |v.chain| && b.number <= v.highestBlock
    ensures var o := HandleNew(v, b, k, monitored, node, t).view;
            Inv(o) && v.highestBlock <= o.highestBlock
  {
    if k > 0 && !v.chain[k - 1].IsParentOf(b) {
      RebuildFromKeepsInv(v, LastValid(v.chain, node, t).0, node, LastValid(v.chain, node, t).1);
    } else {
      assert Linked(v.chain[..k] + [b]);
    }
  }

  /** Reconciling a block keeps the chain invariant, whatever the node answers. */
  lemma {:induction false} ReconcileKeepsInv(v: View, b: Block, monitored: nat, node: Script, t: nat)
    requires Inv(v) && monitored > 0
    ensures var o := Reconcile(v, b, monitored, node, t).view;
            Inv(o) && v.highestBlock <= o.highestBlock && b.number <= o.highestBlock
  {
    if !Holds(v.chain, b) {
      HandleNewKeepsInv(NoteHead(v, b), b, AddAfter(v.chain, b), monitored, node, t);
    }
  }

  // Reconcile a whole sequence of advertised blocks
  function Run(v: View, blocks: seq<Block>, monitored: nat, node: Script, t: nat): (r: (View, nat))
    requires monitored > 0
    decreases |blocks|
  {
    if blocks == [] then (v, t)
    else
      var o := Reconcile(v, blocks[0], monitored, node, t);
      Run(o.view, blocks[1..], monitored, node, o.t)
  }

  /** Over any run, and any changing, forked or missing answers, the list stays linked and the head only rises. */
  lemma {:induction false} RunKeepsInv(v: View, blocks: seq<Block>, monitored: nat, node: Script, t: nat)
    requires Inv(v) && monitored > 0
    ensures var r := Run(v, blocks, monitored, node, t).0;
            && Inv(r) && v.highestBlock <= r.highestBlock
            && forall b :: b in blocks ==> b.number <= r.highestBlock
    decreases |blocks|
  {
    if blocks != [] {
      ReconcileKeepsInv(v, blocks[0], monitored, node, t);
      var o := Reconcile(v, blocks[0], monitored, node, t);
      RunKeepsInv(o.view, blocks[1..], monitored, node, o.t);
      assert blocks == [blocks[0]] + blocks[1..];
    }
  }

  // ----- What the queries of a rebuild decide -----

  function Tail(chain: seq<Block>): Block
    requires chain != []
  {
    chain[|chain| - 1]
  }

  // The answer to the query for the i-th block, when the list is wound back from its tail from time t on
  function AnswerFor(chain: seq<Block>, node: Script, t: nat, i: nat): Reply
    requires i < |chain|
  {
    node.Answer(t + |chain| - 1 - i, chain[i].number)
  }

  predicate StillServed(chain: seq<Block>, node: Script, t: nat, i: nat)
    requires i < |chain|
  {
    var reply := AnswerFor(chain, node, t, i);
    reply.Found? && reply.block.hash == chain[i].hash
  }

  // The block is neither still served, nor does its query fail, so that the one in front of it is next
  predicate WindsPast(chain: seq<Block>, node: Script, t: nat, i: nat)
    requires i < |chain|
  {
    !StillServed(chain, node, t, i) && !AnswerFor(chain, node, t, i).Failed?
  }

  // Winding back ends in front of the first n blocks, or at the last of them
  ghost predicate WindsBackTo(chain: seq<Block>, node: Script, t: nat, n: nat, kept: nat, t': nat)
    requires n <= |chain|
  {
    && (forall i :: n <= i < |chain| ==> WindsPast(chain, node, t, i))
    && if n == 0 then kept == 0 && t' == t + |chain|
       else !WindsPast(chain, node, t, n - 1) && t' == t + |chain| - n + 1
            && kept == if StillServed(chain, node, t, n - 1) then n else 0
  }

  /** Winding back, on any answers: what is kept ends at the last block that the node still serves, and is nothing if
      there is none, or a query fails before it is found. There is one query for each block that is looked at. */
  lemma {:induction false} LastValidExactly(chain: seq<Block>, node: Script, t: nat) returns (n: nat)
    ensures n <= |chain| && WindsBackTo(chain, node, t, n, LastValid(chain, node, t).0, LastValid(chain, node, t).1)
  {
    n := |chain|;
    if chain != [] {
      var last, front := |chain| - 1, chain[..|chain| - 1];
      assert AnswerFor(chain, node, t, last) == node.Answer(t, chain[last].number);
      if WindsPast(chain, node, t, last) {
        n := LastValidExactly(front, node, t + 1);
        forall i | 0 <= i < last
          ensures WindsPast(chain, node, t, i) == WindsPast(front, node, t + 1, i)
          ensures StillServed(chain, node, t, i) == StillServed(front, node, t + 1, i)
        {
          assert AnswerFor(chain, node, t, i) == AnswerFor(front, node, t + 1, i);
        }
      }
    }
  }

  // The node served these blocks, one after the other, and each links to the one before it
  ghost predicate Served(added: seq<Block>, next: nat, expectedParent: Option<Hash>, node: Script, t: nat) {
    && (forall j :: 0 <= j < |added| ==> node.Answer(t + j, next + j) == Found(added[j]))
    && Linked(added) && (added != [] && expectedParent.Some? ==> added[0].parentHash == expectedParent.value)
  }

  function ParentAfter(added: seq<Block>, expectedParent: Option<Hash>): Option<Hash> {
    if added == [] then expectedParent else Some(Tail(added).hash)
  }

  // The answer that ends the appending: an error, no block, or one that does not link
  predicate Stops(reply: Reply, expectedParent: Option<Hash>) {
    reply.Found? ==> expectedParent.Some? && reply.block.parentHash != expectedParent.value
  }

  // The head follows the blocks that are appended
  ghost predicate HeadExtends(v: View, w: View, added: seq<Block>) {
    if added == [] then
      w.highestBlock == v.highestBlock && w.highestBlockSet == v.highestBlockSet && w.headBlockInfo == v.headBlockInfo
    else
      var tail := Tail(added);
      && w.highestBlock == Max(v.highestBlock, tail.number)
      && w.headBlockInfo == (if tail.number >= v.highestBlock then Some(tail) else v.headBlockInfo)
      && (w.highestBlockSet <==> v.highestBlockSet || v.highestBlock < w.highestBlock)
  }

  // Extend has one turn more than its rest
  lemma {:induction false} ExtendOnce(v: View, next: nat, expectedParent: Option<Hash>, node: Script, t: nat)
    ensures var e := Extend(v, next, expectedParent, node, t);
            if node.Answer(t, next).Found? && !Stops(node.Answer(t, next), expectedParent) then
              var b := node.Answer(t, next).block;
              e == Extend(NoteHead(v.(chain := v.chain + [b]), b), next + 1, Some(b.hash), node, t + 1)
            else e == Extended(v, node.Answer(t, next).Failed?, t + 1)
  {
  }

  // The outcome of appending these blocks: they were served, the next answer stopped it, and the head follows them
  ghost predicate Appended(
    v: View, added: seq<Block>, next: nat, expectedParent: Option<Hash>, node: Script, t: nat, e: Extended)
  {
    && e.view.chain == v.chain + added && HeadExtends(v, e.view, added)
    && Served(added, next, expectedParent, node, t) && e.t == t + |added| + 1
    && var stop := node.Answer(t + |added|, next + |added|);
    && Stops(stop, ParentAfter(added, expectedParent)) && (e.cancelled <==> stop.Failed?)
  }

  /** Appending, on any answers: the blocks that the node serves, one after the other, up to the first that it does not
      have or that does not link, or to an error, which cancels. The head follows them. */
  lemma {:induction false} ExtendExactly(v: View, next: nat, expectedParent: Option<Hash>, node: Script, t: nat)
    returns (added: seq<Block>)
    ensures Appended(v, added, next, expectedParent, node, t, Extend(v, next, expectedParent, node, t))
    decreases if next <= MAX_BLOCK then MAX_BLOCK - next + 1 else 0
  {
    ExtendOnce(v, next, expectedParent, node, t);
    if node.Answer(t, next).Found? && !Stops(node.Answer(t, next), expectedParent) {
      var b := node.Answer(t, next).block;
      var w := NoteHead(v.(chain := v.chain + [b]), b);
      var rest := ExtendExactly(w, next + 1, Some(b.hash), node, t + 1);
      AppendedBefore(v, b, w, rest, next, expectedParent, node, t, Extend(w, next + 1, Some(b.hash), node, t + 1));
      added := [b] + rest;
    } else {
      added := [];
      assert v.chain + added == v.chain;
    }
  }

  lemma {:induction false} AppendedBefore(
    v: View, b: Block, w: View, rest: seq<Block>, next: nat, expectedParent: Option<Hash>, node: Script, t: nat,
    e: Extended)
    requires node.Answer(t, next) == Found(b) && !Stops(Found(b), expectedParent)
    requires w == NoteHead(v.(chain := v.chain + [b]), b)
    requires Appended(w, rest, next + 1, Some(b.hash), node, t + 1, e)
    ensures Appended(v, [b] + rest, next, expectedParent, node, t, e)
  {
    assert v.chain + ([b] + rest) == w.chain + rest;
    ServedBefore(b, rest, next, expectedParent, node, t);
    ServedTail(rest, next + 1, Some(b.hash), node, t + 1);
    HeadExtendsBefore(v, b, w, e.view, rest);
    StopsAt(rest, next, node, t);
  }

  lemma {:induction false} StopsAt(rest: seq<Block>, next: nat, node: Script, t: nat)
    ensures node.Answer(t + 1 + |rest|, next + 1 + |rest|) == node.Answer(t + (1 + |rest|), next + (1 + |rest|))
  {
  }

  lemma {:induction false} HeadExtendsBefore(v: View, b: Block, w: View, r: View, rest: seq<Block>)
    requires w == NoteHead(v.(chain := v.chain + [b]), b) && HeadExtends(w, r, rest)
    requires rest != [] ==> b.number < Tail(rest).number
    ensures HeadExtends(v, r, [b] + rest)
  {
    if rest != [] {
      assert Tail([b] + rest) == Tail(rest);
    }
  }

  lemma {:induction false} ServedTail(
    added: seq<Block>, next: nat, expectedParent: Option<Hash>, node: Script, t: nat)
    requires Served(added, next, expectedParent, node, t)
    ensures added != [] ==> Tail(added).number == next + |added| - 1
  {
    if added != [] {
      assert node.Answer(t + (|added| - 1), next + (|added| - 1)) == Found(Tail(added));
    }
  }

  lemma {:induction false} ServedBefore(
    b: Block, rest: seq<Block>, next: nat, expectedParent: Option<Hash>, node: Script, t: nat)
    requires node.Answer(t, next) == Found(b) && !Stops(Found(b), expectedParent)
    requires Served(rest, next + 1, Some(b.hash), node, t + 1)
    ensures Served([b] + rest, next, expectedParent, node, t)
    ensures ParentAfter([b] + rest, expectedParent) == ParentAfter(rest, Some(b.hash))
  {
    var added := [b] + rest;
    forall j | 0 <= j < |added|
      ensures node.Answer(t + j, next + j) == Found(added[j])
    {
      if j > 0 {
        assert node.Answer(t + 1 + (j - 1), next + 1 + (j - 1)) == Found(rest[j - 1]);
      }
    }
    assert rest != [] ==> node.Answer(t + 1 + 0, next + 1 + 0) == Found(rest[0]);
  }

  // The outcome of appending what the node serves behind the blocks that are kept
  ghost predicate Rebuilt(v: View, kept: nat, added: seq<Block>, node: Script, t: nat, o: Outcome)
    requires v.chain != [] && kept <= |v.chain|
  {
    var parent := if kept > 0 then Some(v.chain[kept - 1].hash) else None;
    && Appended(v.(chain := v.chain[..kept]), added, v.chain[0].number + kept, parent, node, t,
                Extended(o.view, o.cancelled, o.t))
    && o.notify == (if o.cancelled || added == [] then None else Some(kept))
  }

  /** A rebuild, on any answers: what the node serves behind the blocks that are kept is appended. It reports the first
      of these blocks, unless it is cancelled by an error. */
  lemma {:induction false} RebuildExactly(v: View, node: Script, t: nat) returns (added: seq<Block>)
    requires Linked(v.chain) && v.chain != []
    ensures Rebuilt(v, LastValid(v.chain, node, t).0, added, node, LastValid(v.chain, node, t).1, Rebuild(v, node, t))
  {
    added := RebuildFromExactly(v, LastValid(v.chain, node, t).0, node, LastValid(v.chain, node, t).1);
  }

  lemma {:induction false} RebuildFromExactly(v: View, kept: nat, node: Script, t: nat) returns (added: seq<Block>)
    requires Linked(v.chain) && v.chain != [] && kept <= |v.chain|
    ensures Rebuilt(v, kept, added, node, t, RebuildFrom(v, kept, node, t))
  {
    var v1 := v.(chain := v.chain[..kept], receiptGeneration := v.receiptGeneration + 1);
    var next, parent := v.chain[0].number + kept, if kept > 0 then Some(v.chain[kept - 1].hash) else None;
    added := ExtendExactly(v1, next, parent, node, t);
    var o := RebuildFromIsExtend(v, kept, v1, next, parent, node, t, Extend(v1, next, parent, node, t));
    AppendedIsRebuilt(v, kept, added, v1, next, parent, node, t, Extend(v1, next, parent, node, t), o);
  }

  lemma {:induction false} AppendedIsRebuilt(
    v: View, kept: nat, added: seq<Block>, v1: View, next: nat, parent: Option<Hash>, node: Script, t: nat,
    e: Extended, o: Outcome)
    requires v.chain != [] && kept <= |v.chain| && next == v.chain[0].number + kept
    requires v1 == v.(chain := v.chain[..kept], receiptGeneration := v1.receiptGeneration)
    requires parent == if kept > 0 then Some(v.chain[kept - 1].hash) else None
    requires Appended(v1, added, next, parent, node, t, e)
    requires o == Outcome(e.view, if e.cancelled || |e.view.chain| <= kept then None else Some(kept), e.cancelled, e.t)
    ensures Rebuilt(v, kept, added, node, t, o)
  {
    assert |e.view.chain| == kept + |added|;
  }

  lemma {:induction false} RebuildFromIsExtend(
    v: View, kept: nat, v1: View, next: nat, parent: Option<Hash>, node: Script, t: nat, e: Extended)
    returns (o: Outcome)
    requires Linked(v.chain) && v.chain != [] && kept <= |v.chain|
    requires v1 == v.(chain := v.chain[..kept], receiptGeneration := v.receiptGeneration + 1)
    requires next == v.chain[0].number + kept && e == Extend(v1, next, parent, node, t)
    requires parent == if kept > 0 then Some(v.chain[kept - 1].hash) else None
    ensures o == RebuildFrom(v, kept, node, t)
    ensures o == Outcome(e.view, if e.cancelled || |e.view.chain| <= kept then None else Some(kept), e.cancelled, e.t)
  {
    LinkedNumbers(v.chain, if kept > 0 then kept - 1 else 0);
    o := RebuildFrom(v, kept, node, t);
  }

  // ----- The head height -----

  // The height is the highest of the height before, the block advertised, and the tail of the list. The block that is
  // held for the head is the one advertised, or the tail, when it is of that height. Otherwise it stays.
  ghost predicate HeadFollows(v: View, b: Block, o: View) {
    && o.highestBlock == Max(Max(v.highestBlock, b.number), if o.chain == [] then 0 else Tail(o.chain).number)
    && (o.highestBlockSet <==> v.highestBlockSet || v.highestBlock < o.highestBlock)
    && (|| (o.headBlockInfo == v.headBlockInfo && b.number < o.highestBlock == v.highestBlock)
        || (o.headBlockInfo == Some(b) && b.number == o.highestBlock)
        || (o.chain != [] && o.headBlockInfo == Some(Tail(o.chain)) && Tail(o.chain).number == o.highestBlock))
  }

  /** On any answers, reconciling a block follows the head exactly. */
  lemma {:induction false} ReconcileFollowsHead(v: View, b: Block, monitored: nat, node: Script, t: nat)
    requires Inv(v) && monitored > 0
    ensures var o := Reconcile(v, b, monitored, node, t);
            && HeadFollows(v, b, o.view)
            && (o.notify.Some? && Tail(o.view.chain).number == o.view.highestBlock ==>
                 o.view.headBlockInfo == Some(Tail(o.view.chain)))
  {
    var k := AddAfter(v.chain, b);
    if !Holds(v.chain, b) {
      ReconcileNew(v, b, monitored, node, t);
      if k > 0 && !v.chain[k - 1].IsParentOf(b) {
        RebuildFollowsHead(v, b, node, t);
      }
    }
  }

  lemma {:induction false} RebuildFollowsHead(v: View, b: Block, node: Script, t: nat)
    requires Inv(v) && v.chain != []
    ensures var o := Rebuild(NoteHead(v, b), node, t);
            && HeadFollows(v, b, o.view)
            && (o.notify.Some? && Tail(o.view.chain).number == o.view.highestBlock ==>
                 o.view.headBlockInfo == Some(Tail(o.view.chain)))
  {
    var w := NoteHead(v, b);
    var (o, kept) := (Rebuild(w, node, t), LastValid(w.chain, node, t).0);
    var added := RebuildExactly(w, node, t);
    AppendedFollowsHead(v, b, w.(chain := w.chain[..kept]), added, o.view);
  }

  lemma {:induction false} AppendedFollowsHead(v: View, b: Block, w: View, added: seq<Block>, r: View)
    requires w == NoteHead(v, b).(chain := w.chain) && r.chain == w.chain + added && HeadExtends(w, r, added)
    requires forall i :: 0 <= i < |w.chain| ==> w.chain[i].number <= v.highestBlock
    ensures HeadFollows(v, b, r)
    ensures added != [] && Tail(r.chain).number == r.highestBlock ==> r.headBlockInfo == Some(Tail(r.chain))
  {
    if added == [] {
      assert r.chain == w.chain;
    } else {
      assert Tail(r.chain) == Tail(added);
    }
  }

  /** While the node serves one chain, and the height is not past it yet, reconciling its head leaves its height, and
      holds that block for the head. */
  lemma {:induction false} ReconcileReachesHead(
    commit: Hash -> Block, v: View, monitored: nat, node: Script, t: nat, c: seq<Block>)
    requires monitored > 0 && Serves(node, c) && IsChain(c) && c != [] && Inv(v) && v.highestBlock < |c|
    requires Genuine(commit, v.chain) && Genuine(commit, c)
    ensures var o := Reconcile(v, c[|c| - 1], monitored, node, t).view;
            && ReachesHead(o.chain, c) && o.highestBlock == |c| - 1 && o.headBlockInfo == Some(c[|c| - 1])
            && (o.highestBlockSet <==> v.highestBlockSet || v.highestBlock < |c| - 1)
  {
    AllNumbers(c);
    AllNumbers(v.chain);
    ReconcileConverges(commit, v, monitored, node, t, c);
    ReconcileFollowsHead(v, c[|c| - 1], monitored, node, t);
  }

  // Every block that is new in the list stands at the reported position or behind it
  ghost predicate NotifiesNew(before: seq<Block>, o: Outcome) {
    && (o.notify.Some? ==> o.notify.value < |o.view.chain|)
    && forall i :: 0 <= i < |o.view.chain| && o.view.chain[i] !in before ==> o.notify.Some? && o.notify.value <= i
  }

  lemma {:induction false} RebuildFromNotifies(v: View, kept: nat, node: Script, t: nat)
    requires Inv(v) && v.chain != [] && kept <= |v.chain|
    ensures var o := RebuildFrom(v, kept, node, t);
            !o.cancelled ==> NotifiesNew(v.chain, o)
  {
    RebuildFromKeepsInv(v, kept, node, t);
  }

  /** A reconcile that was not cancelled, whatever the node answers, reports a position that no added block is
      in front of. No position at all means that no block was added. */
  lemma {:induction false} ReconcileNotifies(v: View, b: Block, monitored: nat, node: Script, t: nat)
    requires Inv(v) && monitored > 0
    ensures var o := Reconcile(v, b, monitored, node, t);
            !o.cancelled ==> NotifiesNew(v.chain, o)
  {
    if Holds(v.chain, b) {
      assert NotifiesNew(v.chain, Outcome(NoteHead(v, b), None, false, t));
    } else {
      ReconcileNew(v, b, monitored, node, t);
      HandleNewNotifies(NoteHead(v, b), b, AddAfter(v.chain, b), monitored, node, t);
    }
  }

  lemma {:induction false} HandleNewNotifies(v: View, b: Block, k: nat, monitored: nat, node: Script, t: nat)
    requires Inv(v) && monitored > 0 && k <= |v.chain|
    ensures var o := HandleNew(v, b, k, monitored, node, t);
            !o.cancelled ==> NotifiesNew(v.chain, o)
  {
    if k > 0 && !v.chain[k - 1].IsParentOf(b) {
      RebuildNotifies(v, node, t);
    } else {
      InsertNotifies(v, b, k, monitored, t);
    }
  }

  lemma {:induction false} RebuildNotifies(v: View, node: Script, t: nat)
    requires Inv(v) && v.chain != []
    ensures var o := Rebuild(v, node, t);
            !o.cancelled ==> NotifiesNew(v.chain, o)
  {
    var (kept, t1) := LastValid(v.chain, node, t);
    RebuildFromNotifies(v, kept, node, t1);
  }

  lemma {:induction false} InsertNotifies(v: View, b: Block, k: nat, monitored: nat, t: nat)
    requires k <= |v.chain| && monitored > 0
    ensures var w := Insert(v, b, k, monitored);
            NotifiesNew(v.chain, Outcome(w, Some(|w.chain| - 1), false, t))
  {
  }

  /** While the receipt cache is not reset, blocks are only added at the tail and aged out at the front. */
  lemma {:induction false} KeptGenerationMeansAppendOnly(v: View, b: Block, monitored: nat, node: Script, t: nat)
    requires monitored > 0
    ensures var o := Reconcile(v, b, monitored, node, t).view;
            o.receiptGeneration == v.receiptGeneration ==>
              o.chain == v.chain || (v.chain != [] && o.chain == LastN(v.chain + [b], monitored))
  {
    if v.chain != [] {
      ExtendKeepsGeneration(v, b, node, t);
    }
    assert v.chain[..|v.chain|] == v.chain;
  }

  /** It is reset exactly when the block is not in the list yet, and does not go on from its tail. */
  lemma {:induction false} ResetsExactly(v: View, b: Block, monitored: nat, node: Script, t: nat)
    requires Linked(v.chain) && monitored > 0
    ensures Reconcile(v, b, monitored, node, t).view.receiptGeneration == v.receiptGeneration
              + if b in v.chain || (v.chain != [] && Tail(v.chain).IsParentOf(b)) then 0 else 1
  {
    GoesOnFromTail(v.chain, b);
    if v.chain != [] {
      ExtendKeepsGeneration(v, b, node, t);
    }
  }

  lemma {:induction false} GoesOnFromTail(chain: seq<Block>, b: Block)
    requires Linked(chain)
    ensures var k := AddAfter(chain, b);
            && (Holds(chain, b) <==> b in chain)
            && (k == |chain| > 0 && chain[k - 1].IsParentOf(b) <==> chain != [] && Tail(chain).IsParentOf(b))
            && (chain != [] && Tail(chain).IsParentOf(b) ==> b !in chain)
  {
    SeekLinked(chain, b);
    SeekSplits(chain, b.number);
    AllNumbers(chain);
  }

  lemma {:induction false} ExtendKeepsGeneration(v: View, b: Block, node: Script, t: nat)
    requires v.chain != []
    ensures Rebuild(NoteHead(v, b), node, t).view.receiptGeneration == v.receiptGeneration + 1
  {
    forall w: View, next: nat, expectedParent: Option<Hash>, u: nat
      ensures Extend(w, next, expectedParent, node, u).view.receiptGeneration == w.receiptGeneration
    {
      ExtendGeneration(w, next, expectedParent, node, u);
    }
  }

  lemma {:induction false} ExtendGeneration(v: View, next: nat, expectedParent: Option<Hash>, node: Script, t: nat)
    ensures Extend(v, next, expectedParent, node, t).view.receiptGeneration == v.receiptGeneration
    decreases if next <= MAX_BLOCK then MAX_BLOCK - next + 1 else 0
  {
    if node.Answer(t, next).Found? {
      var b := node.Answer(t, next).block;
      ExtendGeneration(NoteHead(v.(chain := v.chain + [b]), b), next + 1, Some(b.hash), node, t + 1);
    }
  }

  // ----- What holds while the node serves one chain -----

  lemma {:induction false} ExtendOnChain(
    v: View, next: nat, expectedParent: Option<Hash>, node: Script, t: nat, c: seq<Block>)
    requires Serves(node, c) && IsChain(c)
    requires expectedParent.Some? ==> 0 < next <= |c| && c[next - 1].hash == expectedParent.value
    ensures var e := Extend(v, next, expectedParent, node, t);
            && !e.cancelled
            && e.view.chain == v.chain + if next <= |c| then c[next..] else []
    decreases if next <= MAX_BLOCK then MAX_BLOCK - next + 1 else 0
  {
    assert node.Answer(t, next) == if next < |c| then Found(c[next]) else Missing;
    if next < |c| {
      assert next > 0 ==> c[next - 1].IsParentOf(c[next]);
      var v1 := NoteHead(v.(chain := v.chain + [c[next]]), c[next]);
      ExtendOnChain(v1, next + 1, Some(c[next].hash), node, t + 1, c);
      assert v.chain + c[next..] == v1.chain + c[next + 1..];
    }
  }

  lemma {:induction false} NotInChain(c: seq<Block>, b: Block)
    requires IsChain(c) && (b.number < |c| ==> c[b.number] != b)
    ensures b !in c
  {
    AllNumbers(c);
  }

  lemma {:induction false} LastMatches(commit: Hash -> Block, blocks: seq<Block>, c: seq<Block>)
    requires IsChain(c) && Linked(blocks) && blocks != [] && Genuine(commit, blocks) && Genuine(commit, c)
    requires blocks[|blocks| - 1].number < |c| && blocks[|blocks| - 1].hash == c[blocks[|blocks| - 1].number].hash
    ensures blocks[0].number + |blocks| <= |c| && blocks[..|blocks|] == c[blocks[0].number..blocks[0].number + |blocks|]
  {
    MatchValidatesPrefix(commit, blocks, c, |blocks| - 1);
  }

  // The blocks that are kept agree with the chain, the ones behind them do not
  lemma {:induction false} LastValidOnChain(
    commit: Hash -> Block, blocks: seq<Block>, node: Script, t: nat, c: seq<Block>)
    requires Serves(node, c) && IsChain(c) && Linked(blocks)
    requires Genuine(commit, blocks) && Genuine(commit, c)
    ensures var kept := LastValid(blocks, node, t).0;
            && (kept > 0 ==>
              blocks[0].number + kept <= |c| && blocks[..kept] == c[blocks[0].number..blocks[0].number + kept])
            && (forall i :: kept <= i < |blocks| ==> blocks[i] !in c)
  {
    if blocks != [] {
      var last := blocks[|blocks| - 1];
      assert node.Answer(t, last.number) == if last.number < |c| then Found(c[last.number]) else Missing;
      if last.number < |c| && c[last.number].hash == last.hash {
        LastMatches(commit, blocks, c);
      } else {
        NotInChain(c, last);
        LastValidOnChain(commit, blocks[..|blocks| - 1], node, t + 1, c);
      }
    }
  }

  /** One matching block validates all in front of it: a rebuild of any linked list leaves exactly the
      node's chain, from the old front number to the head. */
  lemma {:induction false} RebuildOnChain(commit: Hash -> Block, v: View, node: Script, t: nat, c: seq<Block>)
    requires Serves(node, c) && IsChain(c) && Linked(v.chain) && v.chain != []
    requires Genuine(commit, v.chain) && Genuine(commit, c)
    ensures var o := Rebuild(v, node, t);
            && !o.cancelled
            && o.view.chain == if v.chain[0].number <= |c| then c[v.chain[0].number..] else []
  {
    LastValidOnChain(commit, v.chain, node, t, c);
    AllNumbers(v.chain);
    RebuildFromOnChain(v, LastValid(v.chain, node, t).0, node, LastValid(v.chain, node, t).1, c);
  }

  lemma {:induction false} RebuildFromOnChain(v: View, kept: nat, node: Script, t: nat, c: seq<Block>)
    requires Serves(node, c) && IsChain(c) && v.chain != [] && kept <= |v.chain|
    requires kept > 0 ==>
      && v.chain[kept - 1].number + 1 == v.chain[0].number + kept <= |c|
      && v.chain[..kept] == c[v.chain[0].number..v.chain[0].number + kept]
    ensures var o := RebuildFrom(v, kept, node, t);
            && !o.cancelled
            && o.view.chain == if v.chain[0].number <= |c| then c[v.chain[0].number..] else []
  {
    var v1 := v.(chain := v.chain[..kept], receiptGeneration := v.receiptGeneration + 1);
    if kept > 0 {
      RebuildKept(v1, v.chain[0].number, node, t, c);
    } else {
      ExtendOnChain(v1, v.chain[0].number, None, node, t, c);
    }
  }

  lemma {:induction false} RebuildKept(v: View, front: nat, node: Script, t: nat, c: seq<Block>)
    requires Serves(node, c) && IsChain(c) && v.chain != [] && front + |v.chain| <= |c|
    requires v.chain == c[front..front + |v.chain|]
    ensures var e := Extend(v, front + |v.chain|, Some(v.chain[|v.chain| - 1].hash), node, t);
            !e.cancelled && e.view.chain == c[front..]
  {
    SameAt(v.chain, c, front);
    ExtendOnChain(v, front + |v.chain|, Some(v.chain[|v.chain| - 1].hash), node, t, c);
    SplitRange(c, front, front + |v.chain|, |c|);
  }

  lemma {:induction false} SameAt(blocks: seq<Block>, c: seq<Block>, n: nat)
    requires blocks != [] && n + |blocks| <= |c| && blocks == c[n..n + |blocks|]
    ensures blocks[|blocks| - 1] == c[n + |blocks| - 1]
  {
  }

  // The block is held already, but it is not the tail of the list
  predicate BelowStaleTail(b: Block, chain: seq<Block>) {
    b in chain && chain[|chain| - 1] != b
  }

  ghost predicate ReachesHead(blocks: seq<Block>, c: seq<Block>)
    requires c != []
  {
    IsSegment(blocks, c) && blocks[|blocks| - 1] == c[|c| - 1]
  }

  /** Reconciling the head of the node's chain makes the list a segment of that chain ending at its head, from
      whatever fork or gap, except exactly when the head is in the list already below a longer tail. That list
      is left as it is. */
  lemma {:induction false} ReconcileConverges(
    commit: Hash -> Block, v: View, monitored: nat, node: Script, t: nat, c: seq<Block>)
    requires monitored > 0 && Serves(node, c) && IsChain(c) && c != [] && Linked(v.chain)
    requires Genuine(commit, v.chain) && Genuine(commit, c)
    ensures var head := c[|c| - 1];
            var o := Reconcile(v, head, monitored, node, t).view;
            && (ReachesHead(o.chain, c) <==> !BelowStaleTail(head, v.chain))
            && (BelowStaleTail(head, v.chain) ==> o.chain == v.chain)
  {
    SeekLinked(v.chain, c[|c| - 1]);
    if Holds(v.chain, c[|c| - 1]) {
      HeldHeadConverges(commit, v, monitored, node, t, c);
    } else {
      NewHeadConverges(commit, v, monitored, node, t, c);
    }
  }

  lemma {:induction false} HeldHeadConverges(
    commit: Hash -> Block, v: View, monitored: nat, node: Script, t: nat, c: seq<Block>)
    requires monitored > 0 && IsChain(c) && c != [] && Linked(v.chain) && Holds(v.chain, c[|c| - 1])
    requires Genuine(commit, v.chain) && Genuine(commit, c)
    ensures Reconcile(v, c[|c| - 1], monitored, node, t).view.chain == v.chain && v.chain != []
    ensures ReachesHead(v.chain, c) <==> v.chain[|v.chain| - 1] == c[|c| - 1]
  {
    if v.chain[|v.chain| - 1] == c[|c| - 1] {
      HeldHeadReached(commit, v.chain, c);
    }
  }

  lemma {:induction false} NewHeadConverges(
    commit: Hash -> Block, v: View, monitored: nat, node: Script, t: nat, c: seq<Block>)
    requires monitored > 0 && Serves(node, c) && IsChain(c) && c != [] && Linked(v.chain) && !Holds(v.chain, c[|c| - 1])
    requires Genuine(commit, v.chain) && Genuine(commit, c)
    ensures ReachesHead(Reconcile(v, c[|c| - 1], monitored, node, t).view.chain, c)
  {
    var head := c[|c| - 1];
    SeekLinked(v.chain, head);
    LinkedNumbers(c, |c| - 1);
    ReconcileNew(v, head, monitored, node, t);
    HandleHeadConverges(commit, NoteHead(v, head), AddAfter(v.chain, head), monitored, node, t, c);
  }

  /** The exception is a list that holds the node's chain, from the front of the list to the head, and more behind it:
      blocks that were replaced by nothing yet. */
  lemma {:induction false} StaleTailExactly(commit: Hash -> Block, chain: seq<Block>, c: seq<Block>)
    requires IsChain(c) && c != [] && Linked(chain) && Genuine(commit, chain) && Genuine(commit, c)
    ensures BelowStaleTail(c[|c| - 1], chain) <==>
      && chain != [] && chain[0].number < |c| < chain[0].number + |chain|
      && chain[..|c| - chain[0].number] == c[chain[0].number..]
  {
    var head := c[|c| - 1];
    AllNumbers(c);
    AllNumbers(chain);
    if chain != [] && chain[0].number < |c| < chain[0].number + |chain|
       && chain[..|c| - chain[0].number] == c[chain[0].number..] {
      var j := |c| - 1 - chain[0].number;
      assert chain[j] == chain[..j + 1][j] == c[chain[0].number..][j];
    }
    if BelowStaleTail(head, chain) {
      var j :| 0 <= j < |chain| && chain[j] == head;
      MatchValidatesPrefix(commit, chain, c, j);
    }
  }

  /** Such a list: block 2 is gone, its parent is the head again, and the list keeps all three. */
  lemma {:induction false} StaleTailStays()
    ensures var c := [Block(0, 10, 9), Block(1, 11, 10)];
            var chain := c + [Block(2, 12, 11)];
            var node := Script((t: nat, n: nat) => if n < |c| then Found(c[n]) else Missing);
            var commit := (h: Hash) => if 10 <= h <= 12 then chain[h - 10] else Block(0, h, 0);
            && Serves(node, c) && IsChain(c) && Linked(chain) && Genuine(commit, chain) && Genuine(commit, c)
            && BelowStaleTail(c[1], chain)
            && Reconcile(View(chain, 2, true, None, 0), c[1], 3, node, 0).view.chain == chain
            && !ReachesHead(chain, c)
  {
    var c := [Block(0, 10, 9), Block(1, 11, 10)];
    var chain := c + [Block(2, 12, 11)];
    var node := Script((t: nat, n: nat) => if n < |c| then Found(c[n]) else Missing);
    var commit := (h: Hash) => if 10 <= h <= 12 then chain[h - 10] else Block(0, h, 0);
    assert chain[1] == c[1];
    ReconcileConverges(commit, View(chain, 2, true, None, 0), 3, node, 0, c);
  }

  lemma {:induction false} HeldHeadReached(commit: Hash -> Block, chain: seq<Block>, c: seq<Block>)
    requires IsChain(c) && c != [] && Linked(chain) && chain != [] && chain[|chain| - 1] == c[|c| - 1]
    requires Genuine(commit, chain) && Genuine(commit, c)
    ensures ReachesHead(chain, c)
  {
    LinkedNumbers(c, |c| - 1);
    MatchValidatesPrefix(commit, chain, c, |chain| - 1);
    assert chain[..|chain|] == chain;
  }

  lemma {:induction false} SeekSplits(chain: seq<Block>, n: nat)
    ensures var k := Seek(chain, n);
            && (k > 0 ==> chain[k - 1].number <= n)
            && forall i :: k <= i < |chain| ==> chain[i].number > n
  {
    if chain != [] && chain[|chain| - 1].number > n {
      SeekSplits(chain[..|chain| - 1], n);
    }
  }

  lemma {:induction false} SeekLinked(chain: seq<Block>, b: Block)
    requires Linked(chain)
    ensures Holds(chain, b) <==> b in chain
    ensures AddAfter(chain, b) > 0 ==> chain[0].number < b.number
  {
    AllNumbers(chain);
    SeekSplits(chain, b.number);
  }

  lemma {:induction false} HandleHeadConverges(
    commit: Hash -> Block, v: View, k: nat, monitored: nat, node: Script, t: nat, c: seq<Block>)
    requires monitored > 0 && Serves(node, c) && IsChain(c) && c != [] && Linked(v.chain)
    requires Genuine(commit, v.chain) && Genuine(commit, c)
    requires k <= |v.chain| && (k > 0 ==> v.chain[0].number < |c| - 1)
    ensures var o := HandleNew(v, c[|c| - 1], k, monitored, node, t).view;
            ReachesHead(o.chain, c)
  {
    if k > 0 && !v.chain[k - 1].IsParentOf(c[|c| - 1]) {
      RebuildOnChain(commit, v, node, t, c);
      TailIsSegment(c, v.chain[0].number);
    } else {
      InsertedHeadLinks(commit, v.chain, k, c);
      InsertedHeadIsSegment(commit, v.chain[..k] + [c[|c| - 1]], monitored, c);
    }
  }

  lemma {:induction false} InsertedHeadLinks(commit: Hash -> Block, chain: seq<Block>, k: nat, c: seq<Block>)
    requires c != [] && Linked(chain) && Genuine(commit, chain) && Genuine(commit, c)
    requires k <= |chain| && (k > 0 ==> chain[k - 1].IsParentOf(c[|c| - 1]))
    ensures Linked(chain[..k] + [c[|c| - 1]]) && Genuine(commit, chain[..k] + [c[|c| - 1]])
  {
  }

  lemma {:induction false} TailIsSegment(c: seq<Block>, n: nat)
    requires IsChain(c) && n < |c|
    ensures ReachesHead(c[n..], c)
  {
    LinkedNumbers(c, n);
  }

  lemma {:induction false} InsertedHeadIsSegment(
    commit: Hash -> Block, blocks: seq<Block>, monitored: nat, c: seq<Block>)
    requires monitored > 0 && IsChain(c) && c != [] && Linked(blocks) && blocks != []
    requires Genuine(commit, blocks) && Genuine(commit, c) && blocks[|blocks| - 1] == c[|c| - 1]
    ensures ReachesHead(LastN(blocks, monitored), c)
  {
    HeldHeadReached(commit, blocks, c);
    var n := blocks[0].number;
    LinkedNumbers(blocks, |blocks| - 1);
    LinkedNumbers(c, |c| - 1);
    LastNOfTail(blocks, monitored, n, c);
    TailIsSegment(c, n + |blocks| - |LastN(blocks, monitored)|);
  }

  lemma {:induction false} LastNOfTail(blocks: seq<Block>, monitored: nat, n: nat, c: seq<Block>)
    requires n + |blocks| == |c| && blocks == c[n..]
    ensures LastN(blocks, monitored) == c[n + |blocks| - |LastN(blocks, monitored)|..]
  {
  }

  /** While the node serves one chain, the blocks from the reported position on are exactly the added ones. */
  lemma {:induction false} ReconcileNotifiesExactly(
    commit: Hash -> Block, v: View, b: Block, monitored: nat, node: Script, t: nat, c: seq<Block>)
    requires Inv(v) && monitored > 0 && Serves(node, c) && IsChain(c) && b in c
    requires Genuine(commit, v.chain) && Genuine(commit, c)
    ensures var o := Reconcile(v, b, monitored, node, t);
            forall i :: 0 <= i < |o.view.chain| ==>
              (o.view.chain[i] !in v.chain <==> o.notify.Some? && o.notify.value <= i)
  {
    ReconcileNotifies(v, b, monitored, node, t);
    SeekLinked(v.chain, b);
    var k := AddAfter(v.chain, b);
    if !Holds(v.chain, b) {
      ReconcileNew(v, b, monitored, node, t);
      if k > 0 && !v.chain[k - 1].IsParentOf(b) {
        RebuildNotifiesExactly(commit, NoteHead(v, b), node, t, c);
      }
    }
  }

  lemma {:induction false} RebuildNotifiesExactly(commit: Hash -> Block, v: View, node: Script, t: nat, c: seq<Block>)
    requires Linked(v.chain) && v.chain != [] && Serves(node, c) && IsChain(c)
    requires Genuine(commit, v.chain) && Genuine(commit, c)
    ensures var o := Rebuild(v, node, t);
            && !o.cancelled
            && (o.notify.Some? ==> forall i :: o.notify.value <= i < |o.view.chain| ==> o.view.chain[i] !in v.chain)
  {
    RebuildOnChain(commit, v, node, t, c);
    LastValidOnChain(commit, v.chain, node, t, c);
    RebuiltBlocksAreNew(v.chain, LastValid(v.chain, node, t).0, c);
  }

  lemma {:induction false} RebuiltBlocksAreNew(chain: seq<Block>, kept: nat, c: seq<Block>)
    requires chain != [] && Linked(chain) && IsChain(c) && kept <= |chain|
    requires forall i :: kept <= i < |chain| ==> chain[i] !in c
    ensures forall i :: chain[0].number + kept <= i < |c| ==> c[i] !in chain
  {
    AllNumbers(chain);
    AllNumbers(c);
  }

  // ----- The head number in light mode -----

  // A reading that is behind by no more than the monitored length comes from a node that lags, and is ignored
  function AcceptHead(current: nat, head: nat, monitored: nat): nat {
    if head < current && current - head <= monitored then current else head
  }

  function AcceptHeads(current: nat, readings: seq<nat>, monitored: nat): nat {
    if readings == [] then current
    else AcceptHead(AcceptHeads(current, readings[..|readings| - 1], monitored), readings[|readings| - 1], monitored)
  }

  // No reading is further behind the ones before it than the monitored length
  ghost predicate DriftWithin(current: nat, readings: seq<nat>, monitored: nat) {
    && (forall i :: 0 <= i < |readings| ==> current <= readings[i] + monitored)
    && forall i, j :: 0 <= i < j < |readings| ==> readings[i] <= readings[j] + monitored
  }

  /** Over any readings whose drift is tolerated, the tracked head is the highest reading so far. */
  lemma {:induction false} HeadIsHighestReading(current: nat, readings: seq<nat>, monitored: nat)
    requires DriftWithin(current, readings, monitored)
    ensures var head := AcceptHeads(current, readings, monitored);
            && current <= head && (forall x :: x in readings ==> x <= head)
            && (head == current || head in readings)
  {
    if readings != [] {
      var front := readings[..|readings| - 1];
      HeadIsHighestReading(current, front, monitored);
      assert readings == front + [readings[|readings| - 1]];
    }
  }

  // The reading is further behind than that, as after a chain is rebuilt from its start
  predicate IsReset(current: nat, head: nat, monitored: nat) {
    head + monitored < current
  }

  predicate ResetAt(current: nat, readings: seq<nat>, monitored: nat, j: nat)
    requires j < |readings|
  {
    IsReset(AcceptHeads(current, readings[..j], monitored), readings[j], monitored)
  }

  // The highest of the readings from the k-th on, and of the one before them
  ghost predicate IsHighestFrom(current: nat, readings: seq<nat>, k: nat, head: nat)
    requires k <= |readings|
  {
    var base := if k == 0 then current else readings[k - 1];
    && base <= head && (forall j :: k <= j < |readings| ==> readings[j] <= head)
    && (head == base || exists j :: k <= j < |readings| && readings[j] == head)
  }

  // From the k-th reading on nothing was reset, and the head is the highest of the readings since
  ghost predicate HighestSince(current: nat, readings: seq<nat>, monitored: nat, k: nat)
    requires k <= |readings|
  {
    && IsHighestFrom(current, readings, k, AcceptHeads(current, readings, monitored))
    && (forall j :: k <= j < |readings| ==> !ResetAt(current, readings, monitored, j))
    && (k > 0 ==> ResetAt(current, readings, monitored, k - 1))
  }

  /** Over any readings at all, the tracked head is the highest one since the latest that was further behind than the
      monitored length, counting that one. */
  lemma {:induction false} HeadIsHighestSinceReset(current: nat, readings: seq<nat>, monitored: nat)
    ensures exists k :: 0 <= k <= |readings| && HighestSince(current, readings, monitored, k)
  {
    if readings == [] {
      assert HighestSince(current, readings, monitored, 0);
    } else {
      var front, last := readings[..|readings| - 1], |readings| - 1;
      HeadIsHighestSinceReset(current, front, monitored);
      if ResetAt(current, readings, monitored, last) {
        assert HighestSince(current, readings, monitored, |readings|);
      } else {
        var k :| 0 <= k <= |front| && HighestSince(current, front, monitored, k);
        HighestGoesOn(current, readings, monitored, k);
      }
    }
  }

  lemma {:induction false} HighestGoesOn(current: nat, readings: seq<nat>, monitored: nat, k: nat)
    requires k < |readings| && HighestSince(current, readings[..|readings| - 1], monitored, k)
    requires !ResetAt(current, readings, monitored, |readings| - 1)
    ensures HighestSince(current, readings, monitored, k)
  {
    var front, last := readings[..|readings| - 1], |readings| - 1;
    forall j | 0 <= j < last
      ensures ResetAt(current, readings, monitored, j) == ResetAt(current, front, monitored, j)
    {
      assert front[..j] == readings[..j];
    }
    HighestMore(current, readings, k, AcceptHeads(current, front, monitored));
  }

  lemma {:induction false} HighestMore(current: nat, readings: seq<nat>, k: nat, head: nat)
    requires k < |readings| && IsHighestFrom(current, readings[..|readings| - 1], k, head)
    ensures IsHighestFrom(current, readings, k, Max(head, readings[|readings| - 1]))
  {
    var front, last := readings[..|readings| - 1], |readings| - 1;
    assert forall j :: 0 <= j < last ==> front[j] == readings[j];
    if readings[last] <= head && head != (if k == 0 then current else readings[k - 1]) {
      var j :| k <= j < |front| && front[j] == head;
      assert readings[j] == head;
    }
  }

  // ----- What consumers are told -----

  datatype BlockHashEvent = BlockHashEvent(blockHashes: seq<Hash>, gapPotential: bool)

  function Hashes(blocks: seq<Block>): seq<Hash> {
    seq(|blocks|, i requires 0 <= i < |blocks| => blocks[i].hash)
  }

  lemma {:induction false} HashesAppend(blocks: seq<Block>, i: nat, j: nat)
    requires i <= j < |blocks|
    ensures Hashes(blocks[i..j + 1]) == Hashes(blocks[i..j]) + [blocks[j].hash]
  {
  }

  // The update of one poll: the hashes of the list from the reported position on
  function Update(o: Outcome, gapPotential: bool): Option<BlockHashEvent> {
    if o.notify.Some? && o.notify.value < |o.view.chain| then
      Some(BlockHashEvent(Hashes(o.view.chain[o.notify.value..]), gapPotential))
    else
      None
  }

  /** A poll that is not cancelled dispatches the hash of every block the reconcile added, in list order, and passes on
      whether blocks may have been missed before. */
  lemma {:induction false} PollDispatchesAdded(
    v: View, latest: Block, monitored: nat, node: Script, t: nat, gapPotential: bool)
    requires Inv(v) && monitored > 0
    ensures var o := Reconcile(v, latest, monitored, node, t);
            !o.cancelled ==> forall i :: 0 <= i < |o.view.chain| && o.view.chain[i] !in v.chain ==>
              DispatchedAt(Update(o, gapPotential), o, i) && Update(o, gapPotential).value.gapPotential == gapPotential
  {
    ReconcileNotifies(v, latest, monitored, node, t);
    var o := Reconcile(v, latest, monitored, node, t);
    if !o.cancelled {
      UpdateCoversNew(v.chain, o, gapPotential);
    }
  }

  // The update carries the hash of the i-th block of the list, at the place the block has after the reported one
  ghost predicate DispatchedAt(update: Option<BlockHashEvent>, o: Outcome, i: nat)
    requires i < |o.view.chain|
  {
    && update.Some? && o.notify.Some? && o.notify.value <= i
    && |update.value.blockHashes| == |o.view.chain| - o.notify.value
    && update.value.blockHashes[i - o.notify.value] == o.view.chain[i].hash
  }

  lemma {:induction false} UpdateCoversNew(before: seq<Block>, o: Outcome, gapPotential: bool)
    requires NotifiesNew(before, o)
    ensures forall i :: 0 <= i < |o.view.chain| && o.view.chain[i] !in before ==>
            DispatchedAt(Update(o, gapPotential), o, i)
  {
  }

  // The state of a poller that needs none on the node
  datatype Polled = Polled(view: View, t: nat, gapPotential: bool)

  function AfterPoll(p: Polled, latest: Reply, monitored: nat, node: Script): (Polled, Option<BlockHashEvent>)
    requires monitored > 0
  {
    if !latest.Found? then (p, None)
    else
      var o := Reconcile(p.view, latest.block, monitored, node, p.t);
      (Polled(o.view, o.t, false), Update(o, p.gapPotential))
  }

  function AfterPolls(p: Polled, latest: seq<Reply>, monitored: nat, node: Script): Polled
    requires monitored > 0
  {
    if latest == [] then p
    else AfterPoll(AfterPolls(p, latest[..|latest| - 1], monitored, node), latest[|latest| - 1], monitored, node).0
  }

  /** Over any run of polls, whatever the node answers, an update says that blocks may have been missed before it if and
      only if no poll before it had a block. */
  lemma {:induction false} GapUntilFirstBlock(p: Polled, latest: seq<Reply>, monitored: nat, node: Script, next: Reply)
    requires monitored > 0 && p.gapPotential
    ensures var r := AfterPolls(p, latest, monitored, node);
            var update := AfterPoll(r, next, monitored, node).1;
            && (r.gapPotential <==> forall k :: 0 <= k < |latest| ==> !latest[k].Found?)
            && (update.Some? ==> update.value.gapPotential == r.gapPotential)
  {
    if latest != [] {
      GapUntilFirstBlock(p, latest[..|latest| - 1], monitored, node, next);
    }
  }

  // ----- The listener -----

  class BlockListener {
    const monitoredHeadLength: nat
    const node: Node
    var canonicalChain: seq<Block>
    var highestBlock: nat
    var highestBlockSet: bool
    var headBlockInfo: Option<Block>
    var receiptGeneration: nat
    var currentChainHead: nat

    ghost function State(): View
      reads this
    {
      View(canonicalChain, highestBlock, highestBlockSet, headBlockInfo, receiptGeneration)
    }

    constructor (monitoredHeadLength: nat, node: Node)
      requires monitoredHeadLength > 0
      ensures this.monitoredHeadLength == monitoredHeadLength && this.node == node
      ensures State() == View([], 0, false, None, 0) && currentChainHead == 0
    {
      this.monitoredHeadLength := monitoredHeadLength;
      this.node := node;
      canonicalChain, highestBlock, highestBlockSet, headBlockInfo := [], 0, false, None;
      receiptGeneration, currentChainHead := 0, 0;
    }

    method CheckAndSetHighestBlock(b: Block)
      modifies this`highestBlock, this`highestBlockSet, this`headBlockInfo
      ensures State() == NoteHead(old(State()), b)
      ensures highestBlock == Max(old(highestBlock), b.number)
      ensures headBlockInfo == if b.number >= old(highestBlock) then Some(b) else old(headBlockInfo)
    {
      if b.number > highestBlock {
        highestBlock := b.number;
        highestBlockSet := true;
        headBlockInfo := Some(b);
      } else if b.number == highestBlock {
        headBlockInfo := Some(b);
      }
    }

    method TrimToLastValidBlock() returns (lastValid: Option<Block>)
      modifies this`canonicalChain, node
      ensures var (kept, t) := LastValid(old(canonicalChain), node.script, old(node.queries));
              && node.queries == t
              && (kept == 0 ==> lastValid == None && canonicalChain == old(canonicalChain))
              && (kept > 0 ==>
                lastValid == Some(old(canonicalChain)[kept - 1]) && canonicalChain == old(canonicalChain)[..kept])
    {
      lastValid := None;
      var pos := |canonicalChain|;
      assert canonicalChain[..pos] == canonicalChain;
      while pos > 0
        invariant pos <= |canonicalChain| && canonicalChain == old(canonicalChain) && lastValid == None
        invariant LastValid(canonicalChain[..pos], node.script, node.queries)
               == LastValid(canonicalChain, node.script, old(node.queries))
      {
        var currentViewBlock := canonicalChain[pos - 1];
        assert canonicalChain[..pos][..pos - 1] == canonicalChain[..pos - 1];
        var reply := node.GetBlockInfoByNumber(currentViewBlock.number);
        if reply.Failed? {
          return None;
        }
        if reply.Found? && reply.block.hash == currentViewBlock.hash {
          canonicalChain := canonicalChain[..pos];
          return Some(currentViewBlock);
        }
        pos := pos - 1;
      }
    }

    method RebuildCanonicalChain() returns (notify: Option<nat>)
      requires canonicalChain != []
      modifies this`canonicalChain, this`highestBlock, this`highestBlockSet, this`headBlockInfo, this`receiptGeneration
      modifies node
      ensures var o := Rebuild(old(State()), node.script, old(node.queries));
              State() == o.view && notify == o.notify && node.queries == o.t
    {
      receiptGeneration := receiptGeneration + 1;
      var lastValid := TrimToLastValidBlock();
      if lastValid.Some? {
        notify := ExtendCanonicalChain(lastValid.value.number + 1, Some(lastValid.value.hash));
      } else {
        var firstBlock := canonicalChain[0];
        canonicalChain := [];
        notify := ExtendCanonicalChain(firstBlock.number, None);
      }
    }

    // The loop of the rebuild, which pushes back what the node now serves
    method ExtendCanonicalChain(next: nat, expectedParent: Option<Hash>) returns (notify: Option<nat>)
      modifies this`canonicalChain, this`highestBlock, this`highestBlockSet, this`headBlockInfo, node
      ensures var e := Extend(old(State()), next, expectedParent, node.script, old(node.queries));
              && State() == e.view && node.queries == e.t
              && notify ==
                   if e.cancelled || |e.view.chain| <= |old(canonicalChain)| then None
                   else Some(|old(canonicalChain)|)
    {
      var nextBlockNumber, expectedParentHash := next, expectedParent;
      notify := None;
      ghost var e := Extend(State(), next, expectedParent, node.script, node.queries);
      while true
        invariant |old(canonicalChain)| <= |canonicalChain|
        invariant notify == if |canonicalChain| > |old(canonicalChain)| then Some(|old(canonicalChain)|) else None
        invariant receiptGeneration == old(receiptGeneration)
        invariant e == Extend(State(), nextBlockNumber, expectedParentHash, node.script, node.queries)
        decreases if nextBlockNumber <= MAX_BLOCK then MAX_BLOCK - nextBlockNumber + 1 else 0
      {
        var reply := node.GetBlockInfoByNumber(nextBlockNumber);
        if reply.Failed? {
          return None;
        }
        if reply.Missing? {
          break;
        }
        var b := reply.block;
        if expectedParentHash.Some? && b.parentHash != expectedParentHash.value {
          break;
        }
        expectedParentHash := Some(b.hash);
        nextBlockNumber := nextBlockNumber + 1;
        canonicalChain := canonicalChain + [b];
        if notify.None? {
          notify := Some(|canonicalChain| - 1);
        }
        CheckAndSetHighestBlock(b);
      }
    }

    method HandleNewBlock(b: Block, addAfter: nat) returns (notify: Option<nat>)
      requires addAfter <= |canonicalChain| && monitoredHeadLength > 0
      modifies this`canonicalChain, this`highestBlock, this`highestBlockSet, this`headBlockInfo, this`receiptGeneration
      modifies node
      ensures var o := HandleNew(old(State()), b, addAfter, monitoredHeadLength, node.script, old(node.queries));
              State() == o.view && notify == o.notify && node.queries == o.t
    {
      if addAfter > 0 {
        var prevBlock := canonicalChain[addAfter - 1];
        if prevBlock.number + 1 != b.number || prevBlock.hash != b.parentHash {
          notify := RebuildCanonicalChain();
          return;
        }
      }
      notify := InsertBlock(b, addAfter);
    }

    // The part of HandleNewBlock that does add the block
    method InsertBlock(b: Block, addAfter: nat) returns (notify: Option<nat>)
      requires addAfter <= |canonicalChain| && monitoredHeadLength > 0
      modifies this`canonicalChain, this`receiptGeneration
      ensures State() == Insert(old(State()), b, addAfter, monitoredHeadLength)
      ensures notify == Some(|canonicalChain| - 1)
    {
      var forkTrim := false;
      if addAfter == 0 {
        receiptGeneration := receiptGeneration + 1;
        canonicalChain := [b];
        assert canonicalChain == old(canonicalChain)[..0] + [b];
      } else {
        forkTrim := addAfter < |canonicalChain|;
        canonicalChain := canonicalChain[..addAfter] + [b];
      }
      if forkTrim {
        receiptGeneration := receiptGeneration + 1;
      }
      TrimToMonitoredLength();
      notify := Some(|canonicalChain| - 1);
    }

    // Trim the amount of history that is kept
    method TrimToMonitoredLength()
      modifies this`canonicalChain
      ensures canonicalChain == LastN(old(canonicalChain), monitoredHeadLength)
    {
      ghost var dropped := 0;
      while |canonicalChain| > monitoredHeadLength
        invariant dropped <= |old(canonicalChain)| && canonicalChain == old(canonicalChain)[dropped..]
        invariant dropped > 0 ==> |canonicalChain| >= monitoredHeadLength
      {
        canonicalChain := canonicalChain[1..];
        dropped := dropped + 1;
      }
    }

    method ReconcileCanonicalChain(b: Block) returns (notify: Option<nat>)
      requires monitoredHeadLength > 0
      modifies this`canonicalChain, this`highestBlock, this`highestBlockSet, this`headBlockInfo, this`receiptGeneration
      modifies node
      ensures var o := Reconcile(old(State()), b, monitoredHeadLength, node.script, old(node.queries));
              State() == o.view && notify == o.notify && node.queries == o.t
    {
      ghost var v, t := State(), node.queries;
      CheckAndSetHighestBlock(b);
      var pos := WindBack(b.number);
      if pos > 0 && canonicalChain[pos - 1] == b {
        return None;
      }
      if pos > 0 && canonicalChain[pos - 1].number == b.number {
        pos := pos - 1;
      }
      ReconcileNew(v, b, monitoredHeadLength, node.script, t);
      notify := HandleNewBlock(b, pos);
    }

    // Find the position of a block number in the sequence, from the back
    method WindBack(number: nat) returns (pos: nat)
      ensures pos == Seek(canonicalChain, number)
    {
      pos := |canonicalChain|;
      assert canonicalChain[..pos] == canonicalChain;
      while pos > 0 && canonicalChain[pos - 1].number > number
        invariant pos <= |canonicalChain|
        invariant Seek(canonicalChain[..pos], number) == Seek(canonicalChain, number)
      {
        assert canonicalChain[..pos][..pos - 1] == canonicalChain[..pos - 1];
        pos := pos - 1;
      }
    }

    method AcceptHeadBlockNumber(head: nat) returns (changed: bool)
      modifies this`currentChainHead, this`highestBlock, this`highestBlockSet
      ensures currentChainHead == AcceptHead(old(currentChainHead), head, monitoredHeadLength)
      ensures changed <==> currentChainHead != old(currentChainHead)
      ensures changed ==> highestBlock == currentChainHead && highestBlockSet
      ensures !changed ==> highestBlock == old(highestBlock) && highestBlockSet == old(highestBlockSet)
    {
      var current := currentChainHead;
      if head == current {
        return false;
      } else if head < current && current - head <= monitoredHeadLength {
        return false;
      }
      currentChainHead := head;
      highestBlock := head;
      highestBlockSet := true;
      changed := true;
    }

    /** Backfill the monitored window before the first poll. On an unchanging chain that reaches the head, the
        result is the whole window. */
    method SeedMonitoredHead(ghost c: seq<Block>)
      requires monitoredHeadLength > 0 && Inv(State())
      modifies this`canonicalChain, this`highestBlock, this`highestBlockSet, this`headBlockInfo, this`receiptGeneration
      modifies node
      ensures Inv(State()) && old(highestBlock) <= highestBlock
      ensures Serves(node.script, c) && IsChain(c) && old(canonicalChain) == [] && old(highestBlockSet) &&
              old(highestBlock) < |c| ==>
                && highestBlock == old(highestBlock)
                && canonicalChain == LastN(c[..highestBlock + 1], monitoredHeadLength)
    {
      var startBlock := 0;
      var highest := highestBlock;
      if highest >= monitoredHeadLength {
        startBlock := highest - monitoredHeadLength + 1;
      }
      if !highestBlockSet {
        return;
      }
      ghost var served := Serves(node.script, c) && IsChain(c) && canonicalChain == [] && highest < |c|;
      SeedBlocks(startBlock, highest, served, c);
      if served {
        SeedFills(State(), startBlock, highest, monitoredHeadLength, c);
      }
    }

    // The loop of the backfill
    method SeedBlocks(startBlock: nat, highest: nat, ghost served: bool, ghost c: seq<Block>)
      requires monitoredHeadLength > 0 && startBlock <= highest && highest - startBlock < monitoredHeadLength
      requires Seeding(State(), served, startBlock, startBlock, highest, c)
      requires served ==> Serves(node.script, c) && IsChain(c) && highest < |c|
      modifies this`canonicalChain, this`highestBlock, this`highestBlockSet, this`headBlockInfo, this`receiptGeneration
      modifies node
      ensures Inv(State()) && highest <= highestBlock
      ensures served ==> Seeding(State(), true, startBlock, highest + 1, highest, c)
    {
      var blockNumber := startBlock;
      while blockNumber <= highest
        invariant startBlock <= blockNumber <= highest + 1
        invariant Seeding(State(), served, startBlock, blockNumber, highest, c)
      {
        var reply := node.GetBlockInfoByNumber(blockNumber);
        if !reply.Found? {
          return;
        }
        SeedKeeps(State(), reply.block, served, startBlock, blockNumber, highest, monitoredHeadLength, node.script,
          node.queries, c);
        var _ := ReconcileCanonicalChain(reply.block);
        blockNumber := blockNumber + 1;
      }
    }
  }

  // The window is filled up to block n
  ghost predicate Seeding(v: View, served: bool, start: nat, n: nat, highest: nat, c: seq<Block>) {
    && Inv(v) && highest <= v.highestBlock
    && (served ==> v.highestBlock == highest && start <= n <= |c| && v.chain == c[start..n])
  }

  lemma {:induction false} SeedKeeps(
    v: View, b: Block, served: bool, start: nat, n: nat, highest: nat, monitored: nat, node: Script, t: nat,
    c: seq<Block>)
    requires monitored > 0 && start <= n <= highest && highest - start < monitored
             && Seeding(v, served, start, n, highest, c)
    requires served ==> Serves(node, c) && IsChain(c) && highest < |c| && b == c[n]
    ensures Seeding(Reconcile(v, b, monitored, node, t).view, served, start, n + 1, highest, c)
  {
    ReconcileKeepsInv(v, b, monitored, node, t);
    if served {
      SeedStep(v, n, start, monitored, node, t, c);
    }
  }

  lemma {:induction false} SeedFills(v: View, start: nat, highest: nat, monitored: nat, c: seq<Block>)
    requires Seeding(v, true, start, highest + 1, highest, c) && monitored > 0
    requires start == if highest >= monitored then highest - monitored + 1 else 0
    ensures v.highestBlock == highest < |c| && v.chain == LastN(c[..highest + 1], monitored)
  {
  }

  lemma {:induction false} SeedStep(v: View, n: nat, start: nat, monitored: nat, node: Script, t: nat, c: seq<Block>)
    requires monitored > 0 && Serves(node, c) && IsChain(c) && start <= n < |c| && n - start < monitored
    requires v.chain == c[start..n] && n <= v.highestBlock
    ensures var o := Reconcile(v, c[n], monitored, node, t);
            o.view.chain == c[start..n + 1] && o.view.highestBlock == v.highestBlock
  {
    SeedIsNext(v.chain, n, start, c);
    LinkedNumbers(c, n);
    ReconcileNew(v, c[n], monitored, node, t);
    assert v.chain[..|v.chain|] == v.chain && [c[n]] == c[n..n + 1];
    SplitRange(c, start, n, n + 1);
  }

  // The next block goes behind all of the window that is filled so far
  lemma {:induction false} SeedIsNext(chain: seq<Block>, n: nat, start: nat, c: seq<Block>)
    requires IsChain(c) && start <= n < |c| && chain == c[start..n]
    ensures !Holds(chain, c[n]) && AddAfter(chain, c[n]) == |chain|
    ensures chain != [] ==> chain[|chain| - 1].IsParentOf(c[n])
  {
    LinkedNumbers(c, n);
    if start < n {
      LinkedNumbers(c, n - 1);
      assert chain[|chain| - 1] == c[n - 1];
    }
  }

  // Full chain tracking with client polling: each poll reconciles the latest block, and there is no state
  // on the node
  class LatestBlockPoller {
    const listener: BlockListener
    var gapPotential: bool

    constructor (listener: BlockListener)
      ensures this.listener == listener && gapPotential
    {
      this.listener := listener;
      gapPotential := true;
    }

    method Poll(latest: Reply) returns (update: Option<BlockHashEvent>, ok: bool)
      requires listener.monitoredHeadLength > 0
      modifies this, listener`canonicalChain, listener`highestBlock, listener`highestBlockSet, listener`headBlockInfo
      modifies listener`receiptGeneration, listener.node
      ensures ok == latest.Found?
      ensures var p := old(Polled(listener.State(), listener.node.queries, gapPotential));
              (Polled(listener.State(), listener.node.queries, gapPotential), update)
                == AfterPoll(p, latest, listener.monitoredHeadLength, listener.node.script)
    {
      update, ok := None, latest.Found?;
      if !ok {
        return;
      }
      var notifyPos := listener.ReconcileCanonicalChain(latest.block);
      if notifyPos.Some? {
        var hashes := HashesFrom(listener.canonicalChain, notifyPos.value);
        update := Some(BlockHashEvent(hashes, gapPotential));
      }
      gapPotential := false;
    }

    static method HashesFrom(chain: seq<Block>, start: nat) returns (hashes: seq<Hash>)
      requires start <= |chain|
      ensures hashes == Hashes(chain[start..])
    {
      hashes := [];
      var pos := start;
      while pos < |chain|
        invariant start <= pos <= |chain|
        invariant hashes == Hashes(chain[start..pos])
      {
        HashesAppend(chain, start, pos);
        hashes := hashes + [chain[pos].hash];
        pos := pos + 1;
      }
      assert chain[start..pos] == chain[start..];
    }
  }
}

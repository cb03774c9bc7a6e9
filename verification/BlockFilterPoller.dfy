/**
 Full chain tracking with a block filter: one poll reconciles a batch of blocks, and dispatches from the lowest
 changed position on. That position is an element of the list, which a later block of the batch can remove.
 */
module BlockFilterPoller {
  import opened Blocks
  import opened CanonicalChain

  // An element of the list is held, by its position, or it was removed from the list
  datatype Position = Nowhere | At(index: nat) | Gone(block: Block)

  // Where the i-th element of the list is after a block was reconciled
  function Tracked(v: View, b: Block, monitored: nat, node: Script, t: nat, i: nat): (p: Position)
    requires monitored > 0 && i < |v.chain|
    ensures p.Gone? ==> p.block == v.chain[i]
    ensures !p.Nowhere?
  {
    var k := AddAfter(v.chain, b);
    if Holds(v.chain, b) then At(i)
    else if Rebuilds(v.chain, b) then
      if i < LastValid(v.chain, node, t).0 then At(i) else Gone(v.chain[i])
    else
      var dropped := Max(k + 1 - monitored, 0);
      if dropped <= i < k then At(i - dropped) else Gone(v.chain[i])
  }

  // Whether the block does not link to the one in front of it
  predicate Rebuilds(chain: seq<Block>, b: Block) {
    var k := AddAfter(chain, b);
    k > 0 && !chain[k - 1].IsParentOf(b)
  }

  lemma {:induction false} ReconcileInserts(v: View, b: Block, monitored: nat, node: Script, t: nat)
    requires monitored > 0 && !Holds(v.chain, b) && !Rebuilds(v.chain, b)
    ensures var w := Insert(NoteHead(v, b), b, AddAfter(v.chain, b), monitored);
            Reconcile(v, b, monitored, node, t) == Outcome(w, Some(|w.chain| - 1), false, t)
  {
    ReconcileNew(v, b, monitored, node, t);
  }

  lemma {:induction false} ReconcileRebuilds(v: View, b: Block, monitored: nat, node: Script, t: nat)
    requires monitored > 0 && !Holds(v.chain, b) && Rebuilds(v.chain, b)
    ensures Reconcile(v, b, monitored, node, t) == Rebuild(NoteHead(v, b), node, t)
  {
    ReconcileNew(v, b, monitored, node, t);
  }

  /** An element that is tracked is in the list, with its block. */
  lemma {:induction false} TrackedIsThere(v: View, b: Block, monitored: nat, node: Script, t: nat, i: nat)
    requires monitored > 0 && i < |v.chain| && !Reconcile(v, b, monitored, node, t).cancelled
    ensures var (p, chain) := (Tracked(v, b, monitored, node, t, i), Reconcile(v, b, monitored, node, t).view.chain);
            p.At? ==> p.index < |chain| && chain[p.index] == v.chain[i]
  {
    if !Holds(v.chain, b) {
      if Rebuilds(v.chain, b) {
        TrackedInRebuild(v, b, monitored, node, t, i);
      } else {
        TrackedInInsert(v, b, monitored, node, t, i);
      }
    }
  }

  lemma {:induction false} TrackedInRebuild(v: View, b: Block, monitored: nat, node: Script, t: nat, i: nat)
    requires monitored > 0 && i < |v.chain| && !Holds(v.chain, b) && Rebuilds(v.chain, b)
    ensures var (p, chain) := (Tracked(v, b, monitored, node, t, i), Reconcile(v, b, monitored, node, t).view.chain);
            p.At? ==> p.index < |chain| && chain[p.index] == v.chain[i]
  {
    ReconcileRebuilds(v, b, monitored, node, t);
    RebuildTracks(NoteHead(v, b), node, t, i);
  }

  lemma {:induction false} TrackedInInsert(v: View, b: Block, monitored: nat, node: Script, t: nat, i: nat)
    requires monitored > 0 && i < |v.chain| && !Holds(v.chain, b) && !Rebuilds(v.chain, b)
    ensures var (p, chain) := (Tracked(v, b, monitored, node, t, i), Reconcile(v, b, monitored, node, t).view.chain);
            p.At? ==> p.index < |chain| && chain[p.index] == v.chain[i]
  {
    ReconcileInserts(v, b, monitored, node, t);
    InsertTracks(NoteHead(v, b), b, AddAfter(v.chain, b), monitored, i);
  }

  lemma {:induction false} RebuildTracks(v: View, node: Script, t: nat, i: nat)
    requires i < |v.chain|
    ensures var chain := Rebuild(v, node, t).view.chain;
            i < LastValid(v.chain, node, t).0 ==> i < |chain| && chain[i] == v.chain[i]
  {
    var (kept, t1) := LastValid(v.chain, node, t);
    RebuildKeepsFront(v, kept, node, t1);
    assert i < kept ==> v.chain[..kept][i] == v.chain[i];
  }

  lemma {:induction false} InsertTracks(v: View, b: Block, k: nat, monitored: nat, i: nat)
    requires monitored > 0 && k <= |v.chain| && i < |v.chain|
    ensures var dropped, chain := Max(k + 1 - monitored, 0), Insert(v, b, k, monitored).chain;
            dropped <= i < k ==> i - dropped < |chain| && chain[i - dropped] == v.chain[i]
  {
  }

  lemma {:induction false} RebuildKeepsFront(v: View, kept: nat, node: Script, t: nat)
    requires v.chain != [] && kept <= |v.chain|
    ensures v.chain[..kept] <= RebuildFrom(v, kept, node, t).view.chain
  {
    var v1 := v.(chain := v.chain[..kept], receiptGeneration := v.receiptGeneration + 1);
    if kept > 0 {
      ExtendAppends(v1, v.chain[kept - 1].number + 1, Some(v.chain[kept - 1].hash), node, t);
    }
  }

  lemma {:induction false} ExtendAppends(v: View, next: nat, expectedParent: Option<Hash>, node: Script, t: nat)
    ensures v.chain <= Extend(v, next, expectedParent, node, t).view.chain
    decreases if next <= MAX_BLOCK then MAX_BLOCK - next + 1 else 0
  {
    if node.Answer(t, next).Found? {
      var b := node.Answer(t, next).block;
      ExtendAppends(NoteHead(v.(chain := v.chain + [b]), b), next + 1, Some(b.hash), node, t + 1);
    }
  }

  datatype Batched = Batched(view: View, position: Position, cancelled: bool, t: nat)

  // The position after one more block: its own when there was none, or that one is not lower
  function Lower(v: View, position: Position, b: Block, monitored: nat, node: Script, t: nat): Position
    requires monitored > 0 && (position.At? ==> position.index < |v.chain|)
  {
    var o := Reconcile(v, b, monitored, node, t);
    if position.Nowhere? then if o.notify.Some? then At(o.notify.value) else Nowhere
    else
      var held := if position.At? then v.chain[position.index] else position.block;
      if o.notify.Some? && o.view.chain[o.notify.value].number <= held.number then At(o.notify.value)
      else if position.At? then Tracked(v, b, monitored, node, t, position.index)
      else position
  }

  // The loop over the blocks of a poll. It is left when a reconcile is cancelled, as the listener is closing then.
  function Batch(v: View, position: Position, blocks: seq<Block>, monitored: nat, node: Script, t: nat): Batched
    requires monitored > 0 && (position.At? ==> position.index < |v.chain|)
    decreases |blocks|
  {
    if blocks == [] then Batched(v, position, false, t)
    else
      var o := Reconcile(v, blocks[0], monitored, node, t);
      if o.cancelled then Batched(o.view, Nowhere, true, o.t)
      else
        LowerIsThere(v, position, blocks[0], monitored, node, t);
        Batch(o.view, Lower(v, position, blocks[0], monitored, node, t), blocks[1..], monitored, node, o.t)
  }

  lemma {:induction false} LowerIsThere(v: View, position: Position, b: Block, monitored: nat, node: Script, t: nat)
    requires monitored > 0 && (position.At? ==> position.index < |v.chain|)
    requires !Reconcile(v, b, monitored, node, t).cancelled
    ensures var p := Lower(v, position, b, monitored, node, t);
            p.At? ==> p.index < |Reconcile(v, b, monitored, node, t).view.chain|
  {
    if position.At? {
      TrackedIsThere(v, b, monitored, node, t, position.index);
    }
  }

  // ----- What is dispatched -----

  // Where the blocks that the batch added are, relative to the position
  ghost predicate Tracks(before: seq<Block>, v: View, position: Position) {
    match position
    case Nowhere => forall i :: 0 <= i < |v.chain| ==> v.chain[i] in before
    case At(p) => p < |v.chain| && forall i :: 0 <= i < |v.chain| && v.chain[i] !in before ==> p <= i
    case Gone(b) => forall i :: 0 <= i < |v.chain| && v.chain[i] !in before ==> b.number < v.chain[i].number
  }

  // Added by this block or before it
  lemma {:induction false} AddedBefore(before: seq<Block>, v: View, o: Outcome, i: nat)
    requires NotifiesNew(v.chain, o) && i < |o.view.chain| && o.view.chain[i] !in before
    ensures (exists j :: 0 <= j < |v.chain| && v.chain[j] == o.view.chain[i]) || (o.notify.Some? && o.notify.value <= i)
  {
  }

  lemma {:induction false} ReplacedTracks(before: seq<Block>, v: View, position: Position, o: Outcome)
    requires Tracks(before, v, position) && NotifiesNew(v.chain, o) && Linked(v.chain) && Linked(o.view.chain)
    requires o.notify.Some?
    requires position.At? ==> o.view.chain[o.notify.value].number <= v.chain[position.index].number
    requires position.Gone? ==> o.view.chain[o.notify.value].number <= position.block.number
    ensures Tracks(before, o.view, At(o.notify.value))
  {
    AllNumbers(v.chain);
    AllNumbers(o.view.chain);
    forall i | 0 <= i < |o.view.chain| && o.view.chain[i] !in before
      ensures o.notify.value <= i
    {
      AddedBefore(before, v, o, i);
    }
  }

  lemma {:induction false} KeptTracks(
    before: seq<Block>, v: View, p: nat, b: Block, monitored: nat, node: Script, t: nat)
    requires Inv(v) && monitored > 0 && Tracks(before, v, At(p)) && !Reconcile(v, b, monitored, node, t).cancelled
    requires var o := Reconcile(v, b, monitored, node, t);
             o.notify.Some? ==> o.view.chain[o.notify.value].number > v.chain[p].number
    ensures Tracks(before, Reconcile(v, b, monitored, node, t).view, Tracked(v, b, monitored, node, t, p))
  {
    var o, q := Reconcile(v, b, monitored, node, t), Tracked(v, b, monitored, node, t, p);
    TrackedIsThere(v, b, monitored, node, t, p);
    ReconcileNotifies(v, b, monitored, node, t);
    ReconcileKeepsInv(v, b, monitored, node, t);
    AllNumbers(v.chain);
    AllNumbers(o.view.chain);
    forall i | 0 <= i < |o.view.chain| && o.view.chain[i] !in before
      ensures if q.At? then q.index <= i else v.chain[p].number < o.view.chain[i].number
    {
      AddedBefore(before, v, o, i);
      if q.Gone? {
        GoneIsBelow(before, v, p, b, monitored, node, t, i);
      }
    }
  }

  // What is left of the blocks added before, when the element is removed and not replaced, is above it
  lemma {:induction false} GoneIsBelow(
    before: seq<Block>, v: View, p: nat, b: Block, monitored: nat, node: Script, t: nat, i: nat)
    requires Inv(v) && monitored > 0 && Tracks(before, v, At(p)) && Tracked(v, b, monitored, node, t, p).Gone?
    requires var o := Reconcile(v, b, monitored, node, t);
             && !o.cancelled && i < |o.view.chain| && o.view.chain[i] !in before
             && (o.notify.Some? ==> o.view.chain[o.notify.value].number > v.chain[p].number)
    ensures v.chain[p].number < Reconcile(v, b, monitored, node, t).view.chain[i].number
  {
    var k := AddAfter(v.chain, b);
    if Rebuilds(v.chain, b) {
      ReconcileRebuilds(v, b, monitored, node, t);
      GoneInRebuild(before, NoteHead(v, b), p, node, t, i);
    } else {
      ReconcileInserts(v, b, monitored, node, t);
      ReconcileKeepsInv(v, b, monitored, node, t);
      AddAfterSplits(v.chain, b);
      GoneInInsert(NoteHead(v, b), p, b, k, monitored, i);
    }
  }

  lemma {:induction false} AddAfterSplits(chain: seq<Block>, b: Block)
    ensures forall j :: AddAfter(chain, b) <= j < |chain| ==> chain[j].number >= b.number
  {
    SeekSplits(chain, b.number);
  }

  lemma {:induction false} GoneInInsert(v: View, p: nat, b: Block, k: nat, monitored: nat, i: nat)
    requires Linked(v.chain) && monitored > 0 && k <= |v.chain| && p < |v.chain| && b.number > v.chain[p].number
    requires forall j :: k <= j < |v.chain| ==> v.chain[j].number >= b.number
    requires !(Max(k + 1 - monitored, 0) <= p < k)
    requires Linked(Insert(v, b, k, monitored).chain) && i < |Insert(v, b, k, monitored).chain|
    ensures v.chain[p].number < Insert(v, b, k, monitored).chain[i].number
  {
    AllNumbers(v.chain);
  }

  lemma {:induction false} GoneInRebuild(before: seq<Block>, v: View, p: nat, node: Script, t: nat, i: nat)
    requires Inv(v) && Tracks(before, v, At(p)) && LastValid(v.chain, node, t).0 <= p
    requires var o := Rebuild(v, node, t);
             && !o.cancelled && i < |o.view.chain| && o.view.chain[i] !in before
             && (o.notify.Some? ==> o.view.chain[o.notify.value].number > v.chain[p].number)
    ensures v.chain[p].number < Rebuild(v, node, t).view.chain[i].number
  {
    var (kept, t1) := LastValid(v.chain, node, t);
    RebuildFromKeepsInv(v, kept, node, t1);
    var o := RebuildFrom(v, kept, node, t1);
    AllNumbers(o.view.chain);
    assert o.view.chain[..kept] == v.chain[..kept];
    assert forall j :: 0 <= j < kept ==> o.view.chain[j] == o.view.chain[..kept][j];
  }

  lemma {:induction false} LowerTracks(
    before: seq<Block>, v: View, position: Position, b: Block, monitored: nat, node: Script, t: nat)
    requires Inv(v) && monitored > 0 && Tracks(before, v, position) && !Reconcile(v, b, monitored, node, t).cancelled
    ensures Tracks(before, Reconcile(v, b, monitored, node, t).view, Lower(v, position, b, monitored, node, t))
  {
    var o, p := Reconcile(v, b, monitored, node, t), Lower(v, position, b, monitored, node, t);
    ReconcileNotifies(v, b, monitored, node, t);
    ReconcileKeepsInv(v, b, monitored, node, t);
    if o.notify.Some? && p == At(o.notify.value) && (position.At? ==>
         o.view.chain[o.notify.value].number <= v.chain[position.index].number) {
      ReplacedTracks(before, v, position, o);
    } else if position.At? {
      KeptTracks(before, v, position.index, b, monitored, node, t);
    } else {
      StillTracks(before, v, position, o);
    }
  }

  lemma {:induction false} StillTracks(before: seq<Block>, v: View, position: Position, o: Outcome)
    requires Tracks(before, v, position) && NotifiesNew(v.chain, o) && Linked(o.view.chain)
    requires !position.At? && (position.Nowhere? ==> o.notify.None?)
    requires position.Gone? && o.notify.Some? ==> o.view.chain[o.notify.value].number > position.block.number
    ensures Tracks(before, o.view, position)
  {
    AllNumbers(o.view.chain);
    forall i | 0 <= i < |o.view.chain| && o.view.chain[i] !in before
      ensures position.Gone? && position.block.number < o.view.chain[i].number
    {
      AddedBefore(before, v, o, i);
    }
  }

  lemma {:induction false} BatchTracks(
    before: seq<Block>, v: View, position: Position, blocks: seq<Block>, monitored: nat, node: Script, t: nat)
    requires Inv(v) && monitored > 0 && Tracks(before, v, position)
    ensures var r := Batch(v, position, blocks, monitored, node, t);
            Inv(r.view) && (!r.cancelled ==> Tracks(before, r.view, r.position))
    decreases |blocks|
  {
    if blocks != [] {
      var o := Reconcile(v, blocks[0], monitored, node, t);
      ReconcileKeepsInv(v, blocks[0], monitored, node, t);
      if !o.cancelled {
        LowerTracks(before, v, position, blocks[0], monitored, node, t);
        var p := Lower(v, position, blocks[0], monitored, node, t);
        BatchTracks(before, o.view, p, blocks[1..], monitored, node, o.t);
      }
    }
  }

  // The position to dispatch from, as that of a single reconcile
  function AsOutcome(r: Batched): Outcome {
    Outcome(r.view, if r.position.At? then Some(r.position.index) else None, r.cancelled, r.t)
  }

  /** A batch of any blocks that was not cancelled dispatches the hash of every block it added that is still in the
      list, in list order, if the element it dispatches from is still in the list itself. If that was removed, the
      added blocks that are not dispatched are all above it. */
  lemma {:induction false} BatchDispatchesAdded(
    v: View, blocks: seq<Block>, monitored: nat, node: Script, t: nat, gapPotential: bool)
    requires Inv(v) && monitored > 0
    ensures var r := Batch(v, Nowhere, blocks, monitored, node, t);
            !r.cancelled ==> forall i :: 0 <= i < |r.view.chain| && r.view.chain[i] !in v.chain ==>
              if r.position.Gone? then r.position.block.number < r.view.chain[i].number
              else DispatchedAt(Update(AsOutcome(r), gapPotential), AsOutcome(r), i)
  {
    BatchTracks(v.chain, v, Nowhere, blocks, monitored, node, t);
  }

  // ----- When the element is removed -----

  // The block is added, and the list is too long then to hold block h as well
  predicate TrimsAway(chain: seq<Block>, b: Block, h: nat, monitored: nat) {
    !Holds(chain, b) && !Rebuilds(chain, b) && b.number >= h + monitored
  }

  // A rebuild from the first "kept" blocks of the list finds no block to add
  predicate AddsNothing(chain: seq<Block>, kept: nat, node: Script, t: nat)
    requires chain != [] && kept <= |chain|
  {
    var next := if kept > 0 then chain[kept - 1].number + 1 else chain[0].number;
    match node.Answer(t, next)
    case Found(b) => kept > 0 && b.parentHash != chain[kept - 1].hash
    case _ => true
  }

  // The list is rebuilt from below block h, and the node has nothing to put there
  predicate CutsAway(chain: seq<Block>, b: Block, h: nat, node: Script, t: nat) {
    && !Holds(chain, b) && Rebuilds(chain, b)
    && var (kept, t1) := LastValid(chain, node, t);
    (kept == 0 || chain[kept - 1].number < h) && AddsNothing(chain, kept, node, t1)
  }

  predicate Removes(v: View, b: Block, h: nat, monitored: nat, node: Script, t: nat) {
    TrimsAway(v.chain, b, h, monitored) || CutsAway(v.chain, b, h, node, t)
  }

  /** An element for block h that a reconcile does not replace by a lower position is removed, if and only if the block
      is added at number h + monitored or above, or the list is rebuilt from below h with nothing to put there. */
  lemma {:induction false} RemovedExactly(v: View, b: Block, monitored: nat, node: Script, t: nat, i: nat)
    requires Inv(v) && monitored > 0 && i < |v.chain|
    requires var o := Reconcile(v, b, monitored, node, t);
             !o.cancelled && (o.notify.Some? ==> o.view.chain[o.notify.value].number > v.chain[i].number)
    ensures Tracked(v, b, monitored, node, t, i).Gone? <==> Removes(v, b, v.chain[i].number, monitored, node, t)
  {
    if !Holds(v.chain, b) {
      if Rebuilds(v.chain, b) {
        ReconcileRebuilds(v, b, monitored, node, t);
        var (kept, t1) := LastValid(v.chain, node, t);
        CutExactly(NoteHead(v, b), kept, node, t1, i);
      } else {
        ReconcileInserts(v, b, monitored, node, t);
        TrimmedExactly(v, b, monitored, i);
      }
    }
  }

  lemma {:induction false} TrimmedExactly(v: View, b: Block, monitored: nat, i: nat)
    requires Linked(v.chain) && monitored > 0 && i < |v.chain| && !Rebuilds(v.chain, b) && b.number > v.chain[i].number
    ensures var k := AddAfter(v.chain, b);
            Max(k + 1 - monitored, 0) <= i < k <==> b.number < v.chain[i].number + monitored
  {
    var k := AddAfter(v.chain, b);
    AddAfterSplits(v.chain, b);
    LinkedNumbers(v.chain, i);
    if k > 0 {
      LinkedNumbers(v.chain, k - 1);
    }
  }

  lemma {:induction false} CutExactly(v: View, kept: nat, node: Script, t: nat, i: nat)
    requires Linked(v.chain) && i < |v.chain| && kept <= |v.chain|
    requires var o := RebuildFrom(v, kept, node, t);
             !o.cancelled && (o.notify.Some? ==> o.view.chain[o.notify.value].number > v.chain[i].number)
    ensures i >= kept <==>
              (kept == 0 || v.chain[kept - 1].number < v.chain[i].number) && AddsNothing(v.chain, kept, node, t)
  {
    AllNumbers(v.chain);
    if !AddsNothing(v.chain, kept, node, t) {
      RebuildAddsFirst(v, kept, node, t);
    }
  }

  lemma {:induction false} RebuildAddsFirst(v: View, kept: nat, node: Script, t: nat)
    requires Linked(v.chain) && v.chain != [] && kept <= |v.chain| && !AddsNothing(v.chain, kept, node, t)
    requires !RebuildFrom(v, kept, node, t).cancelled
    ensures var o := RebuildFrom(v, kept, node, t);
            && o.notify == Some(kept)
            && o.view.chain[kept].number == if kept > 0 then v.chain[kept - 1].number + 1 else v.chain[0].number
  {
    var v1 := v.(chain := v.chain[..kept], receiptGeneration := v.receiptGeneration + 1);
    var next := if kept > 0 then v.chain[kept - 1].number + 1 else v.chain[0].number;
    var b := node.Answer(t, next).block;
    var v2 := NoteHead(v1.(chain := v1.chain + [b]), b);
    ExtendAppends(v2, next + 1, Some(b.hash), node, t + 1);
    assert v2.chain[kept] == b;
  }

  // The number of the block that is held
  function HeldNumber(v: View, position: Position): Option<nat>
    requires position.At? ==> position.index < |v.chain|
  {
    match position
    case Nowhere => None
    case At(i) => Some(v.chain[i].number)
    case Gone(b) => Some(b.number)
  }

  // The element held at the end of the batch was removed: after the last block that reported a position at or below
  // it, some block removed it
  predicate EndsRemoved(
    v: View, held: Option<nat>, removed: bool, blocks: seq<Block>, monitored: nat, node: Script, t: nat)
    requires monitored > 0
    decreases |blocks|
  {
    if blocks == [] then removed
    else
      var o := Reconcile(v, blocks[0], monitored, node, t);
      if o.cancelled then false
      else if o.notify.Some? && (held.None? || o.view.chain[o.notify.value].number <= held.value) then
        EndsRemoved(o.view, Some(o.view.chain[o.notify.value].number), false, blocks[1..], monitored, node, o.t)
      else
        var now := held.Some? && (removed || Removes(v, blocks[0], held.value, monitored, node, t));
        EndsRemoved(o.view, held, now, blocks[1..], monitored, node, o.t)
  }

  // One block of the batch
  lemma {:induction false} LowerRemoves(
    v: View, position: Position, b: Block, monitored: nat, node: Script, t: nat, held: Option<nat>)
    requires Inv(v) && monitored > 0 && (position.At? ==> position.index < |v.chain|)
    requires !Reconcile(v, b, monitored, node, t).cancelled && held == HeldNumber(v, position)
    ensures var (o, p) := (Reconcile(v, b, monitored, node, t), Lower(v, position, b, monitored, node, t));
            && (p.At? ==> p.index < |o.view.chain|)
            && if o.notify.Some? && (held.None? || o.view.chain[o.notify.value].number <= held.value) then
                 !p.Gone? && HeldNumber(o.view, p) == Some(o.view.chain[o.notify.value].number)
               else
                 && HeldNumber(o.view, p) == held
                 && (p.Gone? <==>
                      held.Some? && (position.Gone? || Removes(v, b, held.value, monitored, node, t)))
  {
    LowerIsThere(v, position, b, monitored, node, t);
    var o := Reconcile(v, b, monitored, node, t);
    if position.At? && (o.notify.Some? ==> o.view.chain[o.notify.value].number > v.chain[position.index].number) {
      TrackedIsThere(v, b, monitored, node, t, position.index);
      RemovedExactly(v, b, monitored, node, t, position.index);
    }
  }

  lemma {:induction false} BatchRemovesExactly(
    v: View, position: Position, held: Option<nat>, removed: bool, blocks: seq<Block>, monitored: nat, node: Script,
    t: nat, r: Batched)
    requires Inv(v) && monitored > 0 && (position.At? ==> position.index < |v.chain|)
    requires held == HeldNumber(v, position) && removed == position.Gone?
    requires r == Batch(v, position, blocks, monitored, node, t)
    ensures r.position.Gone? <==> EndsRemoved(v, held, removed, blocks, monitored, node, t)
    decreases |blocks|
  {
    if blocks != [] {
      var o := Reconcile(v, blocks[0], monitored, node, t);
      if !o.cancelled {
        ReconcileKeepsInv(v, blocks[0], monitored, node, t);
        LowerRemoves(v, position, blocks[0], monitored, node, t, held);
        var p := Lower(v, position, blocks[0], monitored, node, t);
        BatchStep(v, position, blocks, monitored, node, t);
        BatchRemovesExactly(o.view, p, HeldNumber(o.view, p), p.Gone?, blocks[1..], monitored, node, o.t, r);
      }
    }
  }

  // Every added block that is still in the list is dispatched
  ghost predicate DispatchesAdded(before: seq<Block>, r: Batched, gapPotential: bool) {
    forall i :: 0 <= i < |r.view.chain| && r.view.chain[i] !in before ==>
      DispatchedAt(Update(AsOutcome(r), gapPotential), AsOutcome(r), i)
  }

  /** Any batch that was not cancelled dispatches every block it added that is still in the list, if and only if there
      is no such block, or no block of the batch removed the element that was held in the end. */
  lemma {:induction false} BatchDispatchesExactly(
    v: View, blocks: seq<Block>, monitored: nat, node: Script, t: nat, gapPotential: bool)
    requires Inv(v) && monitored > 0
    ensures var r := Batch(v, Nowhere, blocks, monitored, node, t);
            !r.cancelled ==>
              (DispatchesAdded(v.chain, r, gapPotential) <==>
                || !EndsRemoved(v, None, false, blocks, monitored, node, t)
                || forall i :: 0 <= i < |r.view.chain| ==> r.view.chain[i] in v.chain)
  {
    BatchDispatchesAdded(v, blocks, monitored, node, t, gapPotential);
    BatchRemovesExactly(v, Nowhere, None, false, blocks, monitored, node, t,
                        Batch(v, Nowhere, blocks, monitored, node, t));
  }

  const FOUR := [Block(0, 10, 9), Block(1, 11, 10), Block(2, 12, 11), Block(3, 13, 12)]

  const FIFTH := Block(4, 14, 13)

  function ServingFour(): Script {
    Script((t: nat, n: nat) => if n < 4 then Found(FOUR[n]) else Missing)
  }

  lemma {:induction false} FourIsServed(chain: seq<Block>)
    requires chain == FOUR[..1]
    ensures Serves(ServingFour(), FOUR) && IsChain(FOUR) && LastValid(chain, ServingFour(), 0) == (1, 1)
  {
  }

  lemma {:induction false} RebuiltToFour(v: View)
    requires v.chain == FOUR[..1]
    ensures var o := Reconcile(v, FOUR[3], 2, ServingFour(), 0);
            o.view.chain == FOUR && o.notify == Some(1) && !o.cancelled
  {
    FourIsServed(v.chain);
    ReconcileRebuilds(v, FOUR[3], 2, ServingFour(), 0);
    var w := NoteHead(v, FOUR[3]);
    ExtendOnChain(w.(chain := w.chain[..1], receiptGeneration := w.receiptGeneration + 1), 1, Some(FOUR[0].hash),
                  ServingFour(), 1, FOUR);
    assert FOUR[..1] + FOUR[1..] == FOUR;
  }

  /** A short batch can miss its blocks too: a list of block 0 that monitors two blocks is rebuilt up to block 3, and
      appending block 4 trims it to blocks 3 and 4. The element for block 1 is gone, and neither is dispatched. */
  lemma {:induction false} ShortBatchCanMiss(v: View)
    requires v.chain == FOUR[..1] && Inv(v)
    ensures var r := Batch(v, Nowhere, [FOUR[3], FIFTH], 2, ServingFour(), 0);
            && !r.cancelled && r.position == Gone(FOUR[1]) && r.view.chain == [FOUR[3], FIFTH]
            && !DispatchesAdded(v.chain, r, false)
  {
    var blocks := [FOUR[3], FIFTH];
    RebuiltToFour(v);
    BatchStep(v, Nowhere, blocks, 2, ServingFour(), 0);
    var o := Reconcile(v, FOUR[3], 2, ServingFour(), 0);
    assert Lower(v, Nowhere, FOUR[3], 2, ServingFour(), 0) == At(1) && blocks[1..] == [FIFTH];
    FifthTrims(o.view, o.t);
    BatchStep(o.view, At(1), [FIFTH], 2, ServingFour(), o.t);
    var r := Batch(v, Nowhere, blocks, 2, ServingFour(), 0);
    assert r.view.chain[0] !in v.chain;
    assert !DispatchedAt(Update(AsOutcome(r), false), AsOutcome(r), 0);
  }

  lemma {:induction false} FifthTrims(v: View, t: nat)
    requires v.chain == FOUR
    ensures var o := Reconcile(v, FIFTH, 2, ServingFour(), t);
            && !o.cancelled && o.view.chain == [FOUR[3], FIFTH]
            && Lower(v, At(1), FIFTH, 2, ServingFour(), t) == Gone(FOUR[1])
  {
    AppendOnce(v, FIFTH, 2, ServingFour(), t);
    LowerShifts(v, At(1), FIFTH, 2, ServingFour(), t);
    assert LastN(FOUR + [FIFTH], 2) == [FOUR[3], FIFTH];
  }

  // ----- A batch that only extends the list -----

  // The blocks link to the tail of the list, one after the other
  ghost predicate Appends(chain: seq<Block>, blocks: seq<Block>) {
    chain != [] && Linked(chain) && Linked([chain[|chain| - 1]] + blocks)
  }

  // The position after the first of n appended blocks
  predicate FirstOf(chain: seq<Block>, first: Block, n: nat, monitored: nat, position: Position) {
    if n <= monitored then n <= |chain| && n > 0 && position == At(|chain| - n) && chain[|chain| - n] == first
    else position == Gone(first)
  }

  lemma {:induction false} AppendOnce(v: View, b: Block, monitored: nat, node: Script, t: nat)
    requires monitored > 0 && Appends(v.chain, [b])
    ensures var o := Reconcile(v, b, monitored, node, t);
            && !Holds(v.chain, b) && AddAfter(v.chain, b) == |v.chain| && !Rebuilds(v.chain, b)
            && o.view.chain == LastN(v.chain + [b], monitored) && Linked(o.view.chain)
            && o.notify == Some(|o.view.chain| - 1) && o.view.chain[|o.view.chain| - 1] == b && !o.cancelled
  {
    var pair := [v.chain[|v.chain| - 1]] + [b];
    assert pair[0].IsParentOf(pair[1]);
    assert v.chain[..|v.chain|] == v.chain;
    assert Linked(v.chain + [b]);
    ReconcileNew(v, b, monitored, node, t);
  }

  // Where it is after one more block
  function Shifted(chain: seq<Block>, monitored: nat, position: Position): Position
    requires position.At? ==> position.index < |chain|
  {
    if !position.At? then position
    else if position.index >= |chain| + 1 - monitored then At(position.index - Max(|chain| + 1 - monitored, 0))
    else Gone(chain[position.index])
  }

  lemma {:induction false} FirstOfShifted(
    chain: seq<Block>, first: Block, n: nat, monitored: nat, position: Position, b: Block)
    requires monitored > 0 && n > 0 && chain != [] && FirstOf(chain, first, n, monitored, position)
    ensures FirstOf(LastN(chain + [b], monitored), first, n + 1, monitored, Shifted(chain, monitored, position))
  {
  }

  lemma {:induction false} LowerShifts(v: View, position: Position, b: Block, monitored: nat, node: Script, t: nat)
    requires monitored > 0 && Appends(v.chain, [b]) && !position.Nowhere?
             && (position.At? ==> position.index < |v.chain|)
    requires b.number > if position.At? then v.chain[position.index].number else position.block.number
    ensures Lower(v, position, b, monitored, node, t) == Shifted(v.chain, monitored, position)
  {
    AppendOnce(v, b, monitored, node, t);
    if position.At? {
      TrackedAppend(v, b, monitored, node, t, position.index);
    }
  }

  lemma {:induction false} AppendStep(
    v: View, first: Block, n: nat, position: Position, b: Block, monitored: nat, node: Script, t: nat)
    requires monitored > 0 && n > 0 && Appends(v.chain, [b]) && FirstOf(v.chain, first, n, monitored, position)
    requires b.number > first.number
    ensures !Reconcile(v, b, monitored, node, t).cancelled
    ensures FirstOf(Reconcile(v, b, monitored, node, t).view.chain, first, n + 1, monitored,
                    Lower(v, position, b, monitored, node, t))
  {
    AppendOnce(v, b, monitored, node, t);
    LowerShifts(v, position, b, monitored, node, t);
    FirstOfShifted(v.chain, first, n, monitored, position, b);
  }

  lemma {:induction false} TrackedAppend(v: View, b: Block, monitored: nat, node: Script, t: nat, i: nat)
    requires monitored > 0 && Appends(v.chain, [b]) && i < |v.chain|
    ensures Tracked(v, b, monitored, node, t, i) == Shifted(v.chain, monitored, At(i))
  {
    AppendOnce(v, b, monitored, node, t);
  }

  lemma {:induction false} AppendRest(v: View, blocks: seq<Block>, monitored: nat, node: Script, t: nat)
    requires monitored > 0 && Appends(v.chain, blocks) && blocks != []
    ensures Appends(v.chain, [blocks[0]]) && v.chain[|v.chain| - 1].number < blocks[0].number
    ensures var chain := Reconcile(v, blocks[0], monitored, node, t).view.chain;
            Appends(chain, blocks[1..]) && chain[|chain| - 1] == blocks[0]
  {
    var list := [v.chain[|v.chain| - 1]] + blocks;
    assert list[0].IsParentOf(list[1]);
    AppendOnce(v, blocks[0], monitored, node, t);
    assert [blocks[0]] + blocks[1..] == list[1..];
  }

  lemma {:induction false} BatchStep(
    v: View, position: Position, blocks: seq<Block>, monitored: nat, node: Script, t: nat)
    requires monitored > 0 && (position.At? ==> position.index < |v.chain|) && blocks != []
    requires !Reconcile(v, blocks[0], monitored, node, t).cancelled
    ensures var o := Reconcile(v, blocks[0], monitored, node, t);
            var p := Lower(v, position, blocks[0], monitored, node, t);
            && (p.At? ==> p.index < |o.view.chain|)
            && Batch(v, position, blocks, monitored, node, t) == Batch(o.view, p, blocks[1..], monitored, node, o.t)
  {
    LowerIsThere(v, position, blocks[0], monitored, node, t);
  }

  // The first block of what is left of the batch
  lemma {:induction false} AppendFirst(
    v: View, first: Block, n: nat, position: Position, blocks: seq<Block>, monitored: nat, node: Script, t: nat)
    returns (v1: View, p: Position, t1: nat)
    requires monitored > 0 && n > 0 && Appends(v.chain, blocks) && FirstOf(v.chain, first, n, monitored, position)
    requires blocks != [] && v.chain[|v.chain| - 1].number >= first.number
    ensures Appends(v1.chain, blocks[1..]) && FirstOf(v1.chain, first, n + 1, monitored, p)
    ensures v1.chain[|v1.chain| - 1].number >= first.number
    ensures Batch(v, position, blocks, monitored, node, t) == Batch(v1, p, blocks[1..], monitored, node, t1)
  {
    AppendRest(v, blocks, monitored, node, t);
    AppendStep(v, first, n, position, blocks[0], monitored, node, t);
    BatchStep(v, position, blocks, monitored, node, t);
    var o := Reconcile(v, blocks[0], monitored, node, t);
    v1, p, t1 := o.view, Lower(v, position, blocks[0], monitored, node, t), o.t;
  }

  // How the batch ends, when n blocks were appended already
  ghost predicate EndsAppended(r: Batched, first: Block, n: nat, monitored: nat) {
    !r.cancelled && FirstOf(r.view.chain, first, n, monitored, r.position)
  }

  lemma {:induction false} AppendMore(
    v: View, first: Block, n: nat, position: Position, blocks: seq<Block>, monitored: nat, node: Script, t: nat,
    r: Batched, total: nat)
    requires monitored > 0 && n > 0 && Appends(v.chain, blocks) && FirstOf(v.chain, first, n, monitored, position)
    requires v.chain[|v.chain| - 1].number >= first.number
    requires r == Batch(v, position, blocks, monitored, node, t) && total == n + |blocks|
    ensures EndsAppended(r, first, total, monitored)
    decreases |blocks|
  {
    if blocks != [] {
      var v1, p, t1 := AppendFirst(v, first, n, position, blocks, monitored, node, t);
      AppendMore(v1, first, n + 1, p, blocks[1..], monitored, node, t1, r, total);
    }
  }

  // The first block of the batch
  lemma {:induction false} AppendStart(v: View, blocks: seq<Block>, monitored: nat, node: Script, t: nat)
    returns (v1: View, t1: nat)
    requires monitored > 0 && Appends(v.chain, blocks) && blocks != []
    ensures Appends(v1.chain, blocks[1..]) && v1.chain[|v1.chain| - 1] == blocks[0]
    ensures FirstOf(v1.chain, blocks[0], 1, monitored, At(|v1.chain| - 1))
    ensures Batch(v, Nowhere, blocks, monitored, node, t)
            == Batch(v1, At(|v1.chain| - 1), blocks[1..], monitored, node, t1)
  {
    AppendRest(v, blocks, monitored, node, t);
    AppendOnce(v, blocks[0], monitored, node, t);
    BatchStep(v, Nowhere, blocks, monitored, node, t);
    var o := Reconcile(v, blocks[0], monitored, node, t);
    v1, t1 := o.view, o.t;
  }

  lemma {:induction false} EndsExactly(r: Batched, first: Block, n: nat, monitored: nat)
    requires EndsAppended(r, first, n, monitored)
    ensures n <= monitored <==> !r.position.Gone?
    ensures r.position.At? ==> r.position.index + n == |r.view.chain| && r.view.chain[r.position.index] == first
  {
  }

  /** A batch that only extends the list dispatches from its first block, if and only if it is no longer than the
      monitored length. A longer one has dropped that block from the front of the list. */
  lemma {:induction false} AppendedBatchExactly(v: View, blocks: seq<Block>, monitored: nat, node: Script, t: nat)
    requires monitored > 0 && Appends(v.chain, blocks) && blocks != []
    ensures var r := Batch(v, Nowhere, blocks, monitored, node, t);
            && !r.cancelled
            && (|blocks| <= monitored <==> !r.position.Gone?)
            && (r.position.At? ==> r.position.index + |blocks| == |r.view.chain|
                                   && r.view.chain[r.position.index] == blocks[0])
  {
    var v1, t1 := AppendStart(v, blocks, monitored, node, t);
    var r := Batch(v, Nowhere, blocks, monitored, node, t);
    AppendMore(v1, blocks[0], 1, At(|v1.chain| - 1), blocks[1..], monitored, node, t1, r, |blocks|);
    EndsExactly(r, blocks[0], |blocks|, monitored);
  }
}

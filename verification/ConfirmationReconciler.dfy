/**
 Builds the confirmation list of a transaction from a possibly stale list built earlier, the in-memory
 canonical chain, and the node.
 */
module ConfirmationReconciler {
  import opened Blocks

  // NilBlock is the use of a block the node did not have, which the program does not check for
  datatype Failure = NotCaughtUp | BlockNotAvailable | CannotBuild | QueryFailed | NilBlock

  datatype Result =
    | Confirmations(blocks: seq<Block>, confirmed: bool, newFork: bool, rebuilt: bool)
    | Rejected(failure: Failure)

  // ----- What the operations compute -----

  // Where the list, known to be linked in front of i, stops being linked
  function LinkedEnd(blocks: seq<Block>, i: nat): (k: nat)
    requires 0 < i <= |blocks|
    ensures i <= k <= |blocks|
    decreases |blocks| - i
  {
    if i < |blocks| && blocks[i - 1].IsParentOf(blocks[i]) then LinkedEnd(blocks, i + 1) else i
  }

  datatype Early = Early(blocks: seq<Block>, newFork: bool, rebuilt: bool)

  function EarlyList(existing: seq<Block>, tx: Block): (e: Early)
    ensures e.blocks != [] && e.blocks[0] == tx
  {
    if existing == [] then Early([tx], false, false)
    else if existing[0] != tx then Early([tx], true, false)
    else
      var k := LinkedEnd(existing, 1);
      Early(existing[..k], false, k < |existing|)
  }

  function FirstAbove(chain: seq<Block>, n: nat, i: nat): (k: nat)
    requires i <= |chain|
    ensures i <= k <= |chain|
    decreases |chain| - i
  {
    if i < |chain| && chain[i].number <= n then FirstAbove(chain, n, i + 1) else i
  }

  // The in-memory chain goes on right after the block
  predicate ConnectsTo(b: Block, chain: seq<Block>) {
    var k := FirstAbove(chain, b.number, 0);
    k < |chain| && b.IsParentOf(chain[k])
  }

  // The blocks numbered above "after" and up to "target"
  function Window(chain: seq<Block>, after: nat, target: nat): (w: seq<Block>)
    ensures w != [] ==> after < w[0].number <= target
  {
    if chain == [] || chain[0].number > target then []
    else if chain[0].number <= after then Window(chain[1..], after, target)
    else [chain[0]] + Window(chain[1..], after, target)
  }

  predicate Differ(blocks: seq<Block>, others: seq<Block>) {
    exists i :: 0 <= i < |blocks| && i < |others| && blocks[i] != others[i]
  }

  // Drop the end of the early list where the late list overlaps it, and tell whether the two differ there
  function Trim(early: seq<Block>, late: seq<Block>): (r: (seq<Block>, bool))
    requires early != [] && late != [] && early[0].number <= late[0].number
    ensures r.0 <= early
  {
    var d := late[0].number - early[0].number;
    if |early| > d then (early[..d], Differ(early[d..], late)) else (early, false)
  }

  datatype Joined = Joined(result: Result, t: nat)

  // Fill the gap between the two lists backwards. When they still do not link, drop the end of the early list.
  function Join(early: seq<Block>, late: seq<Block>, e: Early, target: nat, node: Script, t: nat): Joined
    requires late != []
    decreases |early|, late[0].number
  {
    if early == [] then Joined(Rejected(CannotBuild), t)
    else if early[|early| - 1].number + 1 < late[0].number then
      match node.Answer(t, late[0].number - 1)
      case Failed => Joined(Rejected(QueryFailed), t + 1)
      case Missing => Joined(Rejected(NilBlock), t + 1)
      case Found(b) =>
        if b.IsParentOf(late[0]) then Join(early, [b] + late, e, target, node, t + 1)
        else Joined(Rejected(CannotBuild), t + 1)
    else if early[|early| - 1].IsParentOf(late[0]) then
      Joined(Confirmations(early + late, |early + late| > target, e.newFork, e.rebuilt), t)
    else
      Join(early[..|early| - 1], late, e.(newFork := true), target, node, t)
  }

  function SpliceLists(e: Early, late: seq<Block>, target: nat, node: Script, t: nat): Joined
    requires e.blocks != [] && late != [] && e.blocks[0].number <= late[0].number
  {
    var (early, differ) := Trim(e.blocks, late);
    Join(early, late, if differ then e.(newFork := true) else e, target, node, t)
  }

  // The late list comes from memory, or is the target block when memory has nothing to offer
  function LateAndSplice(e: Early, tx: Block, target: nat, chain: seq<Block>, node: Script, t: nat): Joined
    requires e.blocks != [] && e.blocks[0] == tx
  {
    if chain == [] || chain[|chain| - 1].number < tx.number then Joined(Rejected(NotCaughtUp), t)
    else
      var late := Window(chain, tx.number, tx.number + target);
      if late != [] then SpliceLists(e, late, target, node, t)
      else
        match node.Answer(t, tx.number + target)
        case Failed => Joined(Rejected(QueryFailed), t + 1)
        case Missing => Joined(Rejected(BlockNotAvailable), t + 1)
        case Found(b) => SpliceLists(e, [b], target, node, t + 1)
  }

  predicate EarlyListSuffices(blocks: seq<Block>, tx: Block, target: nat, chain: seq<Block>)
    requires blocks != []
  {
    blocks[|blocks| - 1].number >= tx.number + target && ConnectsTo(blocks[|blocks| - 1], chain)
  }

  // chain1 and chain2 are the in-memory chain as the two critical sections see it
  function Build(
    existing: seq<Block>, tx: Block, target: nat, chain1: seq<Block>, chain2: seq<Block>, node: Script, t: nat): Joined
  {
    var e := EarlyList(existing, tx);
    if EarlyListSuffices(e.blocks, tx, target, chain1) then
      EarlyListLength(existing, tx, target);
      Joined(Confirmations(e.blocks[..target + 1], true, false, false), t)
    else
      LateAndSplice(e, tx, target, chain2, node, t)
  }

  lemma {:induction false} LinkedEndIsLinked(blocks: seq<Block>, i: nat)
    requires 0 < i <= |blocks| && Linked(blocks[..i])
    ensures Linked(blocks[..LinkedEnd(blocks, i)])
    decreases |blocks| - i
  {
    if i < |blocks| && blocks[i - 1].IsParentOf(blocks[i]) {
      LinkedEndIsLinked(blocks, i + 1);
    }
  }

  lemma {:induction false} EarlyListLinked(existing: seq<Block>, tx: Block)
    ensures Linked(EarlyList(existing, tx).blocks)
  {
    if existing != [] && existing[0] == tx {
      LinkedEndIsLinked(existing, 1);
    }
  }

  // The longest part of the list, from its start on, that is linked
  ghost predicate LongestLinked(part: seq<Block>, blocks: seq<Block>) {
    && part <= blocks && part != [] && Linked(part)
    && (|part| < |blocks| ==> !part[|part| - 1].IsParentOf(blocks[|part|]))
  }

  /** What is used of a list that is for the transaction block is the longest part that is linked, and the flag says
      whether that is not all of it. Of any other list nothing is used. */
  lemma {:induction false} EarlyListExactly(existing: seq<Block>, tx: Block)
    ensures var e := EarlyList(existing, tx);
            if existing != [] && existing[0] == tx then
              LongestLinked(e.blocks, existing) && !e.newFork && (e.rebuilt <==> e.blocks != existing)
            else e == Early([tx], existing != [], false)
  {
    if existing != [] && existing[0] == tx {
      LinkedEndIsLinked(existing, 1);
      LinkedEndBreaks(existing, 1);
    }
  }

  lemma {:induction false} EarlyListLength(existing: seq<Block>, tx: Block, target: nat)
    ensures var blocks := EarlyList(existing, tx).blocks;
            blocks[|blocks| - 1].number >= tx.number + target ==> |blocks| >= target + 1
  {
    var blocks := EarlyList(existing, tx).blocks;
    EarlyListLinked(existing, tx);
    LinkedNumbers(blocks, |blocks| - 1);
  }

  /** A block connects to memory exactly when memory holds its child. */
  lemma {:induction false} ConnectsExactly(b: Block, chain: seq<Block>)
    requires Linked(chain)
    ensures ConnectsTo(b, chain) <==> exists k :: 0 <= k < |chain| && b.IsParentOf(chain[k])
  {
    FirstAboveExactly(chain, b.number, 0);
    AllNumbers(chain);
  }

  lemma {:induction false} FirstAboveExactly(chain: seq<Block>, n: nat, i: nat)
    requires i <= |chain|
    ensures var k := FirstAbove(chain, n, i);
            && (forall j :: i <= j < k ==> chain[j].number <= n)
            && (k < |chain| ==> chain[k].number > n)
    decreases |chain| - i
  {
    if i < |chain| && chain[i].number <= n {
      FirstAboveExactly(chain, n, i + 1);
    }
  }

  // ----- What holds on any node answers -----

  // A list that is built is linked, starts at the transaction block, and is confirmed exactly when it is complete
  ghost predicate WellBuilt(r: Result, tx: Block, target: nat) {
    r.Confirmations? ==>
      && r.blocks != [] && r.blocks[0] == tx && Linked(r.blocks)
      && |r.blocks| <= target + 1 && (r.confirmed <==> |r.blocks| == target + 1)
  }

  lemma {:induction false} JoinWellBuilt(
    early: seq<Block>, late: seq<Block>, e: Early, tx: Block, target: nat, node: Script, t: nat)
    requires late != [] && Linked(early) && Linked(late) && late[|late| - 1].number <= tx.number + target
    requires early != [] ==> early[0] == tx
    ensures WellBuilt(Join(early, late, e, target, node, t).result, tx, target)
    ensures Join(early, late, e, target, node, t).result.Confirmations? ==>
      Join(early, late, e, target, node, t).result.rebuilt == e.rebuilt
    decreases |early|, late[0].number
  {
    if early == [] {
    } else if early[|early| - 1].number + 1 < late[0].number {
      var reply := node.Answer(t, late[0].number - 1);
      if reply.Found? && reply.block.IsParentOf(late[0]) {
        JoinWellBuilt(early, [reply.block] + late, e, tx, target, node, t + 1);
      }
    } else if early[|early| - 1].IsParentOf(late[0]) {
      LinkedNumbers(early + late, |early + late| - 1);
    } else {
      JoinWellBuilt(early[..|early| - 1], late, e.(newFork := true), tx, target, node, t);
    }
  }

  // The answers to the queries of a join, which is for the block in front of the late list first, and then for the one
  // in front of that, and so on
  function JoinAnswer(first: nat, node: Script, i: nat, t: nat): Reply
    requires i < first
  {
    node.Answer(t + i, first - 1 - i)
  }

  // Which failure it is depends on the answer to the last query. The ones before it brought a block.
  ghost predicate FailsAsAnswered(r: Result, first: nat, node: Script, t: nat, queries: nat)
    requires queries <= first
  {
    && (forall i :: 0 <= i < queries - 1 ==> JoinAnswer(first, node, i, t).Found?)
    && (r == Rejected(QueryFailed) <==> queries > 0 && JoinAnswer(first, node, queries - 1, t).Failed?)
    && (r == Rejected(NilBlock) <==> queries > 0 && JoinAnswer(first, node, queries - 1, t).Missing?)
    && (r.Rejected? ==> r.failure in {QueryFailed, NilBlock, CannotBuild})
  }

  /** On any answers, the join asks for one block after the other, backwards from the late list, until a query fails,
      the node does not have the block, it does not link, or the lists meet. */
  lemma {:induction false} JoinFailsExactly(
    early: seq<Block>, late: seq<Block>, e: Early, target: nat, node: Script, t: nat)
    requires late != []
    ensures var j := Join(early, late, e, target, node, t);
            && t <= j.t <= t + late[0].number
            && FailsAsAnswered(j.result, late[0].number, node, t, j.t - t)
    decreases |early|, late[0].number
  {
    var j := Join(early, late, e, target, node, t);
    if early == [] {
    } else if early[|early| - 1].number + 1 < late[0].number {
      var reply, first := node.Answer(t, late[0].number - 1), late[0].number;
      assert JoinAnswer(first, node, 0, t) == reply;
      if reply.Found? && reply.block.IsParentOf(late[0]) {
        JoinFailsExactly(early, [reply.block] + late, e, target, node, t + 1);
        forall i | 0 < i < j.t - t
          ensures JoinAnswer(first, node, i, t) == JoinAnswer(first - 1, node, i - 1, t + 1)
        {
        }
      }
    } else if !early[|early| - 1].IsParentOf(late[0]) {
      JoinFailsExactly(early[..|early| - 1], late, e.(newFork := true), target, node, t);
    }
  }

  lemma {:induction false} WindowLinked(chain: seq<Block>, after: nat, target: nat)
    requires Linked(chain)
    ensures var w := Window(chain, after, target);
            && Linked(w) && (w != [] ==> w[|w| - 1].number <= target)
            && (w != [] && chain[0].number > after ==> w[0] == chain[0])
  {
    if chain != [] && chain[0].number <= target {
      WindowLinked(chain[1..], after, target);
    }
  }

  lemma {:induction false} SpliceWellBuilt(e: Early, late: seq<Block>, tx: Block, target: nat, node: Script, t: nat)
    requires e.blocks != [] && e.blocks[0] == tx && Linked(e.blocks)
    requires late != [] && Linked(late) && tx.number <= late[0].number && late[|late| - 1].number <= tx.number + target
    ensures var r := SpliceLists(e, late, target, node, t).result;
            WellBuilt(r, tx, target) && (r.Confirmations? ==> r.rebuilt == e.rebuilt)
  {
    var (early, differ) := Trim(e.blocks, late);
    JoinWellBuilt(early, late, if differ then e.(newFork := true) else e, tx, target, node, t);
  }

  /** Whatever the node answers, and whatever the list given is, a successful build returns a linked list that
      starts at the transaction block and has at most target + 1 blocks, and it is confirmed exactly at
      target + 1. It says rebuilt exactly when the list given had to be cut where its links break. A list given that
      is long enough and connects to memory is answered from without asking the node. */
  lemma {:induction false} BuildWellBuilt(
    existing: seq<Block>, tx: Block, target: nat, chain1: seq<Block>, chain2: seq<Block>, node: Script, t: nat)
    requires Linked(chain2)
    ensures EarlyListSuffices(EarlyList(existing, tx).blocks, tx, target, chain1) ==>
            |EarlyList(existing, tx).blocks| > target
    ensures var r := Build(existing, tx, target, chain1, chain2, node, t).result;
            && WellBuilt(r, tx, target)
            && (EarlyListSuffices(EarlyList(existing, tx).blocks, tx, target, chain1) ==>
                 r.Confirmations? && r.confirmed && r.blocks == EarlyList(existing, tx).blocks[..target + 1]
                 && Build(existing, tx, target, chain1, chain2, node, t).t == t)
            && (r.Confirmations? ==>
                 (r.rebuilt <==>
                  && existing != [] && existing[0] == tx && !Linked(existing)
                  && !EarlyListSuffices(EarlyList(existing, tx).blocks, tx, target, chain1)))
  {
    var e := EarlyList(existing, tx);
    EarlyListLinked(existing, tx);
    EarlyListLength(existing, tx, target);
    RebuiltMeansBroken(existing, tx);
    if !EarlyListSuffices(e.blocks, tx, target, chain1) {
      LateWellBuilt(e, tx, target, chain2, node, t);
    }
  }

  lemma {:induction false} LateWellBuilt(e: Early, tx: Block, target: nat, chain: seq<Block>, node: Script, t: nat)
    requires e.blocks != [] && e.blocks[0] == tx && Linked(e.blocks) && Linked(chain)
    ensures var r := LateAndSplice(e, tx, target, chain, node, t).result;
            WellBuilt(r, tx, target) && (r.Confirmations? ==> r.rebuilt == e.rebuilt)
  {
    var late := Window(chain, tx.number, tx.number + target);
    WindowLinked(chain, tx.number, tx.number + target);
    if late != [] {
      SpliceWellBuilt(e, late, tx, target, node, t);
    } else if node.Answer(t, tx.number + target).Found? {
      SpliceWellBuilt(e, [node.Answer(t, tx.number + target).block], tx, target, node, t + 1);
    }
  }

  // Memory holds a block behind the transaction, up to the target
  predicate MemoryOffers(chain: seq<Block>, tx: Block, target: nat) {
    exists k :: 0 <= k < |chain| && tx.number < chain[k].number <= tx.number + target
  }

  lemma {:induction false} WindowOffers(chain: seq<Block>, tx: Block, target: nat)
    requires Linked(chain)
    ensures Window(chain, tx.number, tx.number + target) != [] <==> MemoryOffers(chain, tx, target)
  {
    AllNumbers(chain);
    if chain != [] {
      WindowOffers(chain[1..], tx, target);
      assert forall k :: 0 < k < |chain| ==> chain[k] == chain[1..][k - 1];
      assert forall k :: 0 <= k < |chain[1..]| ==> chain[1..][k] == chain[k + 1];
    }
  }

  /** On any answers, when no list is built for want of blocks: memory has not got to the transaction, or it holds none
      of the blocks asked for and the node does not have the target block. */
  lemma {:induction false} BuildRefusesExactly(
    existing: seq<Block>, tx: Block, target: nat, chain1: seq<Block>, chain2: seq<Block>, node: Script, t: nat)
    requires Linked(chain2)
    ensures var r := Build(existing, tx, target, chain1, chain2, node, t).result;
            var suffices := EarlyListSuffices(EarlyList(existing, tx).blocks, tx, target, chain1);
            var behind := chain2 == [] || chain2[|chain2| - 1].number < tx.number;
            && (r == Rejected(NotCaughtUp) <==> !suffices && behind)
            && (r == Rejected(BlockNotAvailable) <==>
                 && !suffices && !behind && !MemoryOffers(chain2, tx, target)
                 && node.Answer(t, tx.number + target).Missing?)
  {
    var e, late := EarlyList(existing, tx), Window(chain2, tx.number, tx.number + target);
    WindowOffers(chain2, tx, target);
    if late != [] {
      SpliceRefuses(e, late, target, node, t);
    } else if node.Answer(t, tx.number + target).Found? {
      SpliceRefuses(e, [node.Answer(t, tx.number + target).block], target, node, t + 1);
    }
  }

  lemma {:induction false} SpliceRefuses(e: Early, late: seq<Block>, target: nat, node: Script, t: nat)
    requires e.blocks != [] && late != [] && e.blocks[0].number <= late[0].number
    ensures var r := SpliceLists(e, late, target, node, t).result;
            r.Rejected? ==> r.failure in {QueryFailed, NilBlock, CannotBuild}
  {
    var (early, differ) := Trim(e.blocks, late);
    JoinFailsExactly(early, late, if differ then e.(newFork := true) else e, target, node, t);
  }

  lemma {:induction false} RebuiltMeansBroken(existing: seq<Block>, tx: Block)
    ensures EarlyList(existing, tx).rebuilt <==> existing != [] && existing[0] == tx && !Linked(existing)
  {
    if existing != [] && existing[0] == tx {
      LinkedEndIsLinked(existing, 1);
      LinkedEndBreaks(existing, 1);
      assert existing[..|existing|] == existing;
    }
  }

  lemma {:induction false} LinkedEndBreaks(blocks: seq<Block>, i: nat)
    requires 0 < i <= |blocks|
    ensures var k := LinkedEnd(blocks, i);
            k < |blocks| ==> !blocks[k - 1].IsParentOf(blocks[k])
    decreases |blocks| - i
  {
    if i < |blocks| && blocks[i - 1].IsParentOf(blocks[i]) {
      LinkedEndBreaks(blocks, i + 1);
    }
  }

  // ----- What holds while the node serves one chain -----

  datatype Expected = Blocks(blocks: seq<Block>) | Reason(failure: Failure)

  // The answer for the transaction in block n, from the chain and what is in memory alone
  function Reference(c: seq<Block>, chain: seq<Block>, n: nat, target: nat): Expected
    requires n < |c|
    requires chain != [] ==> chain[|chain| - 1].number < |c|
  {
    if chain == [] || chain[|chain| - 1].number < n then Reason(NotCaughtUp)
    else
      var tail := chain[|chain| - 1].number;
      var end := n + target;
      if n < tail && chain[0].number <= end then Blocks(c[n..Min(tail, end) + 1])
      else if end < |c| then Blocks(c[n..end + 1])
      else Reason(BlockNotAvailable)
  }

  predicate Agrees(r: Result, x: Expected) {
    match r
    case Confirmations(blocks, _, _, _) => x == Blocks(blocks)
    case Rejected(failure) => x == Reason(failure)
  }

  // Some of the first "length" blocks are not those of the chain from number n on
  predicate Diverges(blocks: seq<Block>, c: seq<Block>, n: nat, length: nat) {
    exists i :: 0 <= i < |blocks| && i < length && n + i < |c| && blocks[i] != c[n + i]
  }

  // The confirmations are the blocks n to k of the chain
  predicate FromChain(r: Result, newFork: bool, c: seq<Block>, n: nat, k: nat, target: nat)
    requires n <= k <= |c|
  {
    r.Confirmations? && r.blocks == c[n..k] && r.confirmed == (k - n > target) && r.newFork == newFork
  }

  // One turn of the join, case by case
  lemma {:induction false} JoinFills(
    early: seq<Block>, late: seq<Block>, e: Early, target: nat, node: Script, t: nat, b: Block)
    requires early != [] && late != [] && early[|early| - 1].number + 1 < late[0].number
    requires node.Answer(t, late[0].number - 1) == Found(b) && b.IsParentOf(late[0])
    ensures Join(early, late, e, target, node, t) == Join(early, [b] + late, e, target, node, t + 1)
  {
  }

  lemma {:induction false} JoinLinks(early: seq<Block>, late: seq<Block>, e: Early, target: nat, node: Script, t: nat)
    requires early != [] && late != [] && early[|early| - 1].IsParentOf(late[0])
    ensures Join(early, late, e, target, node, t).result
         == Confirmations(early + late, |early + late| > target, e.newFork, e.rebuilt)
  {
  }

  lemma {:induction false} JoinDrops(early: seq<Block>, late: seq<Block>, e: Early, target: nat, node: Script, t: nat)
    requires early != [] && late != [] && early[|early| - 1].number + 1 >= late[0].number
    requires !early[|early| - 1].IsParentOf(late[0])
    ensures Join(early, late, e, target, node, t)
         == Join(early[..|early| - 1], late, e.(newFork := true), target, node, t)
  {
  }

  // A turn that fills the gap leaves a longer piece of the chain
  lemma {:induction false} FillsOnChain(
    early: seq<Block>, m: nat, k: nat, e: Early, n: nat, target: nat, node: Script, t: nat, c: seq<Block>)
    requires Serves(node, c) && IsChain(c) && n < m < k <= |c|
    requires early != [] && early[|early| - 1].number == n + |early| - 1 && n + |early| < m
    ensures Join(early, c[m..k], e, target, node, t) == Join(early, c[m - 1..k], e, target, node, t + 1)
  {
    LinkedNumbers(c, m);
    LinkedNumbers(c, m - 1);
    assert c[m - 1].IsParentOf(c[m]) && c[m..k][0] == c[m];
    SplitRange(c, m - 1, m, k);
    assert [c[m - 1]] == c[m - 1..m];
    JoinFills(early, c[m..k], e, target, node, t, c[m - 1]);
  }

  // r is what the join comes to, and fork whether it says that there is one
  lemma {:induction false} JoinOnChain(
    commit: Hash -> Block, early: seq<Block>, m: nat, k: nat, e: Early, n: nat, target: nat, node: Script, t: nat,
    c: seq<Block>, r: Joined, fork: bool)
    requires Serves(node, c) && IsChain(c) && n < m < k <= |c|
    requires early != [] && Linked(early) && Genuine(commit, early) && Genuine(commit, c)
    requires early[0] == c[n] && n + |early| <= m
    requires r == Join(early, c[m..k], e, target, node, t)
    requires fork == (e.newFork || Diverges(early, c, n, |early|))
    ensures FromChain(r.result, fork, c, n, k, target)
    decreases |early|, m
  {
    LinkedNumbers(c, n);
    LinkedNumbers(early, |early| - 1);
    if n + |early| < m {
      FillsOnChain(early, m, k, e, n, target, node, t, c);
      JoinOnChain(commit, early, m - 1, k, e, n, target, node, t + 1, c, r, fork);
    } else if early[|early| - 1].IsParentOf(c[m]) {
      LinksOnChain(commit, early, m, k, e, n, target, node, t, c);
    } else {
      DropsOnChain(early, m, k, e, n, target, node, t, c);
      JoinOnChain(commit, early[..|early| - 1], m, k, e.(newFork := true), n, target, node, t, c, r, true);
    }
  }

  lemma {:induction false} LinksOnChain(
    commit: Hash -> Block, early: seq<Block>, m: nat, k: nat, e: Early, n: nat, target: nat, node: Script, t: nat,
    c: seq<Block>)
    requires IsChain(c) && n < m < k <= |c|
    requires early != [] && Linked(early) && Genuine(commit, early) && Genuine(commit, c)
    requires early[0] == c[n] && n + |early| == m && early[|early| - 1].IsParentOf(c[m])
    ensures FromChain(Join(early, c[m..k], e, target, node, t).result, e.newFork, c, n, k, target)
    ensures !Diverges(early, c, n, |early|)
  {
    LinkedNumbers(c, n);
    assert c[m..k][0] == c[m];
    LinksAgree(commit, early, c, n, m);
    JoinLinks(early, c[m..k], e, target, node, t);
    SplitRange(c, n, m, k);
  }

  lemma {:induction false} DropsOnChain(
    early: seq<Block>, m: nat, k: nat, e: Early, n: nat, target: nat, node: Script, t: nat, c: seq<Block>)
    requires IsChain(c) && n < m < k <= |c| && early != [] && early[0] == c[n] && n + |early| == m
    requires early[|early| - 1].number == n + |early| - 1 && !early[|early| - 1].IsParentOf(c[m])
    ensures |early| > 1 && Diverges(early, c, n, |early|)
    ensures Join(early, c[m..k], e, target, node, t)
         == Join(early[..|early| - 1], c[m..k], e.(newFork := true), target, node, t)
  {
    LinkedNumbers(c, m);
    assert c[m..k][0] == c[m];
    BrokenLinkDiverges(early, c, n, m);
    JoinDrops(early, c[m..k], e, target, node, t);
  }

  lemma {:induction false} LinksAgree(commit: Hash -> Block, early: seq<Block>, c: seq<Block>, n: nat, m: nat)
    requires IsChain(c) && early != [] && Linked(early) && Genuine(commit, early) && Genuine(commit, c)
    requires early[0].number == n && n + |early| == m < |c| && early[|early| - 1].IsParentOf(c[m])
    ensures early == c[n..m]
  {
    assert c[m - 1].IsParentOf(c[m]);
    LinkedNumbers(c, m);
    MatchValidatesPrefix(commit, early, c, |early| - 1);
    assert early[..|early|] == early;
  }

  lemma {:induction false} BrokenLinkDiverges(early: seq<Block>, c: seq<Block>, n: nat, m: nat)
    requires IsChain(c) && early != [] && n + |early| == m < |c| && early[0] == c[n]
    requires !early[|early| - 1].IsParentOf(c[m])
    ensures |early| > 1 && Diverges(early, c, n, |early|)
  {
    assert c[m - 1].IsParentOf(c[m]);
    assert early[|early| - 1] != c[n + |early| - 1];
  }

  lemma {:induction false} SpliceOnChain(
    commit: Hash -> Block, e: Early, m: nat, k: nat, n: nat, target: nat, node: Script, t: nat, c: seq<Block>)
    requires Serves(node, c) && IsChain(c) && n < m < k <= |c|
    requires e.blocks != [] && Linked(e.blocks) && Genuine(commit, e.blocks) && Genuine(commit, c)
             && e.blocks[0] == c[n]
    ensures e.blocks[0].number <= c[m..k][0].number
    ensures var r := SpliceLists(e, c[m..k], target, node, t).result;
            FromChain(r, e.newFork || Diverges(e.blocks, c, n, k - n), c, n, k, target)
  {
    LinkedNumbers(c, n);
    LinkedNumbers(c, m);
    var (early, differ) := Trim(e.blocks, c[m..k]);
    var e' := if differ then e.(newFork := true) else e;
    TrimSeesDivergence(e.blocks, c, n, m, k);
    JoinOnChain(commit, early, m, k, e', n, target, node, t, c, Join(early, c[m..k], e', target, node, t),
                e.newFork || Diverges(e.blocks, c, n, k - n));
  }

  lemma {:induction false} TrimSeesDivergence(blocks: seq<Block>, c: seq<Block>, n: nat, m: nat, k: nat)
    requires n < m < k <= |c| && blocks != [] && blocks[0].number == n && c[m].number == m
    ensures var (early, differ) := Trim(blocks, c[m..k]);
            differ || Diverges(early, c, n, |early|) <==> Diverges(blocks, c, n, k - n)
  {
    var (early, differ) := Trim(blocks, c[m..k]);
    if differ {
      var i :| 0 <= i < |blocks[m - n..]| && i < |c[m..k]| && blocks[m - n..][i] != c[m..k][i];
      assert blocks[m - n + i] != c[n + (m - n + i)];
    } else if Diverges(blocks, c, n, k - n) {
      UnseenDiverges(blocks, c, n, m, k);
    }
  }

  // A divergence that the overlap does not show is in what is left of the early list
  lemma {:induction false} UnseenDiverges(blocks: seq<Block>, c: seq<Block>, n: nat, m: nat, k: nat)
    requires n < m < k <= |c| && blocks != [] && blocks[0].number == n && c[m].number == m
    requires Diverges(blocks, c, n, k - n) && !Trim(blocks, c[m..k]).1
    ensures var early := Trim(blocks, c[m..k]).0;
            Diverges(early, c, n, |early|)
  {
    forall i | m - n <= i < |blocks| && i < k - n
      ensures blocks[i] == c[n + i]
    {
      assert blocks[m - n..][i - (m - n)] == c[m..k][i - (m - n)];
    }
    var i :| 0 <= i < |blocks| && i < k - n && n + i < |c| && blocks[i] != c[n + i];
    assert Trim(blocks, c[m..k]).0[i] != c[n + i];
  }

  // Window on a piece of the chain, with its bounds lo and hi
  lemma {:induction false} WindowOnChain(chain: seq<Block>, f: nat, n: nat, end: nat, lo: nat, hi: nat, c: seq<Block>)
    requires IsChain(c) && f + |chain| <= |c| && chain == c[f..f + |chain|]
    requires lo == if f > n then f else n + 1
    requires hi == if f + |chain| <= end then f + |chain| else end + 1
    ensures Window(chain, n, end) == if lo < hi then c[lo..hi] else []
  {
    if chain != [] {
      LinkedNumbers(c, f);
      assert chain[1..] == c[f + 1..f + |chain|];
      if f <= end {
        WindowOnChain(chain[1..], f + 1, n, end, if f + 1 > n then f + 1 else n + 1, hi, c);
        if n < f {
          SplitRange(c, f, f + 1, hi);
          assert [c[f]] == c[f..f + 1];
        }
      }
    }
  }

  // Both critical sections see a piece of the node's chain, and the second one reaches at least as far
  ghost predicate InMemory(chain1: seq<Block>, chain2: seq<Block>, c: seq<Block>) {
    && (chain1 == [] || IsSegment(chain1, c))
    && (chain2 == [] || IsSegment(chain2, c))
    && (chain1 != [] ==> chain2 != [] && chain1[|chain1| - 1].number <= chain2[|chain2| - 1].number)
  }

  // The list is linked from its start up to the i-th block
  ghost predicate LinkedUpTo(blocks: seq<Block>, i: nat)
    requires i < |blocks|
  {
    Linked(blocks[..i + 1])
  }

  // A block of the list, linked from its start on, is not that of the chain, within some length
  ghost predicate LinkedForkWithin(existing: seq<Block>, c: seq<Block>, n: nat, length: nat) {
    exists i :: 0 <= i < |existing| && i < length && n + i < |c| && LinkedUpTo(existing, i) && existing[i] != c[n + i]
  }

  // The fork a caller is told about: its list is of another transaction block, or the linked part of it differs
  // from the chain at a block number within the list that is returned
  ghost predicate ForkVisible(existing: seq<Block>, tx: Block, c: seq<Block>, length: nat) {
    existing != [] && (existing[0] != tx || LinkedForkWithin(existing, c, tx.number, length))
  }

  lemma {:induction false} LinkedWithin(part: seq<Block>, blocks: seq<Block>, i: nat)
    requires LongestLinked(part, blocks) && i < |blocks|
    ensures LinkedUpTo(blocks, i) <==> i < |part|
  {
    if i < |part| {
      assert blocks[..i + 1] == part[..i + 1];
    } else {
      assert !blocks[..i + 1][|part| - 1].IsParentOf(blocks[..i + 1][|part|]);
    }
  }

  lemma {:induction false} DivergesWithin(part: seq<Block>, blocks: seq<Block>, c: seq<Block>, n: nat, length: nat)
    requires LongestLinked(part, blocks)
    ensures Diverges(part, c, n, length) <==> LinkedForkWithin(blocks, c, n, length)
  {
    forall i | 0 <= i < |blocks|
      ensures LinkedUpTo(blocks, i) <==> i < |part|
    {
      LinkedWithin(part, blocks, i);
    }
    if Diverges(part, c, n, length) {
      var i :| 0 <= i < |part| && i < length && n + i < |c| && part[i] != c[n + i];
      assert blocks[i] != c[n + i] && LinkedUpTo(blocks, i);
    }
    if LinkedForkWithin(blocks, c, n, length) {
      var i :| 0 <= i < |blocks| && i < length && n + i < |c| && LinkedUpTo(blocks, i) && blocks[i] != c[n + i];
      assert part[i] != c[n + i];
    }
  }

  lemma {:induction false} SegmentTail(chain: seq<Block>, c: seq<Block>)
    requires IsChain(c) && IsSegment(chain, c)
    ensures chain[|chain| - 1].number == chain[0].number + |chain| - 1
    ensures Linked(chain)
  {
    AllNumbers(c);
  }

  // The blocks of the chain from front to tail that are behind block n, up to the target block
  function Offered(c: seq<Block>, front: nat, tail: nat, n: nat, end: nat): seq<Block>
    requires front <= tail < |c| && n < end
  {
    if n < tail && front <= end then c[Max(front, n + 1)..Min(tail, end) + 1] else []
  }

  // What memory offers is that
  ghost predicate Offers(chain: seq<Block>, n: nat, end: nat, c: seq<Block>)
    requires n < end
  {
    chain != [] ==>
      var front, tail := chain[0].number, chain[|chain| - 1].number;
      front <= tail < |c| && Window(chain, n, end) == Offered(c, front, tail, n, end)
  }

  lemma {:induction false} WindowBounds(f: nat, length: nat, n: nat, end: nat)
    requires length > 0 && n < end
    ensures var lo, hi := Max(f, n + 1), Min(f + length - 1, end) + 1;
            && lo == (if f > n then f else n + 1) && hi == (if f + length <= end then f + length else end + 1)
            && (lo < hi <==> n < f + length - 1 && f <= end)
  {
  }

  lemma {:induction false} WindowIsOffered(chain: seq<Block>, front: nat, tail: nat, n: nat, end: nat, c: seq<Block>)
    requires IsChain(c) && n < end && chain != [] && tail == front + |chain| - 1 && tail < |c|
    requires chain == c[front..front + |chain|]
    ensures Window(chain, n, end) == Offered(c, front, tail, n, end)
  {
    WindowBounds(front, |chain|, n, end);
    WindowOnChain(chain, front, n, end, Max(front, n + 1), Min(tail, end) + 1, c);
  }

  lemma {:induction false} SegmentOffers(chain: seq<Block>, n: nat, end: nat, c: seq<Block>)
    requires IsChain(c) && n < end && (chain == [] || IsSegment(chain, c))
    ensures Offers(chain, n, end, c)
  {
    if chain != [] {
      SegmentTail(chain, c);
      WindowIsOffered(chain, chain[0].number, chain[|chain| - 1].number, n, end, c);
    }
  }

  // The outcome that is claimed: that of the reference, and NewFork exactly when a divergence is within it
  ghost predicate AsReference(r: Result, x: Expected, e: Early, c: seq<Block>, n: nat, target: nat) {
    && Agrees(r, x)
    && (r.Confirmations? ==>
         r.confirmed == (|r.blocks| > target) && (r.newFork <==> e.newFork || Diverges(e.blocks, c, n, |r.blocks|)))
  }

  lemma {:induction false} FromChainAsReference(r: Result, e: Early, c: seq<Block>, n: nat, k: nat, target: nat)
    requires n <= k <= |c| && FromChain(r, e.newFork || Diverges(e.blocks, c, n, k - n), c, n, k, target)
    ensures AsReference(r, Blocks(c[n..k]), e, c, n, target)
  {
  }

  lemma {:induction false} LateOnChain(
    commit: Hash -> Block, e: Early, tx: Block, target: nat, chain: seq<Block>, node: Script, t: nat, c: seq<Block>)
    requires Serves(node, c) && IsChain(c) && tx.number < |c| && c[tx.number] == tx && target > 0
    requires e.blocks != [] && e.blocks[0] == tx && Linked(e.blocks) && Genuine(commit, e.blocks) && Genuine(commit, c)
    requires Offers(chain, tx.number, tx.number + target, c)
    ensures AsReference(LateAndSplice(e, tx, target, chain, node, t).result,
                        Reference(c, chain, tx.number, target), e, c, tx.number, target)
  {
    if chain != [] && chain[|chain| - 1].number >= tx.number {
      if tx.number < chain[|chain| - 1].number && chain[0].number <= tx.number + target {
        MemoryAsReference(commit, e, tx, target, chain, node, t, c);
      } else {
        NodeAsReference(commit, e, tx, target, chain, node, t, c);
      }
    }
  }

  lemma {:induction false} MemoryAsReference(
    commit: Hash -> Block, e: Early, tx: Block, target: nat, chain: seq<Block>, node: Script, t: nat, c: seq<Block>)
    requires Serves(node, c) && IsChain(c) && tx.number < |c| && c[tx.number] == tx && target > 0
    requires e.blocks != [] && e.blocks[0] == tx && Linked(e.blocks) && Genuine(commit, e.blocks) && Genuine(commit, c)
    requires Offers(chain, tx.number, tx.number + target, c) && chain != []
    requires tx.number < chain[|chain| - 1].number && chain[0].number <= tx.number + target
    ensures AsReference(LateAndSplice(e, tx, target, chain, node, t).result,
                        Reference(c, chain, tx.number, target), e, c, tx.number, target)
  {
    var lo: nat := Max(chain[0].number, tx.number + 1);
    var hi: nat := Min(chain[|chain| - 1].number, tx.number + target) + 1;
    assert Window(chain, tx.number, tx.number + target) == c[lo..hi];
    LateFromMemory(commit, e, tx, target, chain, lo, hi, node, t, c);
    FromChainAsReference(LateAndSplice(e, tx, target, chain, node, t).result, e, c, tx.number, hi, target);
    assert Reference(c, chain, tx.number, target) == Blocks(c[tx.number..hi]);
  }

  lemma {:induction false} NodeAsReference(
    commit: Hash -> Block, e: Early, tx: Block, target: nat, chain: seq<Block>, node: Script, t: nat, c: seq<Block>)
    requires Serves(node, c) && IsChain(c) && tx.number < |c| && c[tx.number] == tx && target > 0
    requires e.blocks != [] && e.blocks[0] == tx && Linked(e.blocks) && Genuine(commit, e.blocks) && Genuine(commit, c)
    requires Offers(chain, tx.number, tx.number + target, c) && chain != [] && chain[|chain| - 1].number >= tx.number
    requires !(tx.number < chain[|chain| - 1].number && chain[0].number <= tx.number + target)
    ensures AsReference(LateAndSplice(e, tx, target, chain, node, t).result,
                        Reference(c, chain, tx.number, target), e, c, tx.number, target)
  {
    var end := tx.number + target;
    LateFromNode(commit, e, tx, target, chain, node, t, c);
    if end < |c| {
      FromChainAsReference(LateAndSplice(e, tx, target, chain, node, t).result, e, c, tx.number, end + 1, target);
      assert Reference(c, chain, tx.number, target) == Blocks(c[tx.number..end + 1]);
    }
  }

  lemma {:induction false} LateFromMemory(
    commit: Hash -> Block, e: Early, tx: Block, target: nat, chain: seq<Block>, lo: nat, hi: nat, node: Script,
    t: nat, c: seq<Block>)
    requires Serves(node, c) && IsChain(c) && tx.number < |c| && c[tx.number] == tx
    requires e.blocks != [] && e.blocks[0] == tx && Linked(e.blocks) && Genuine(commit, e.blocks) && Genuine(commit, c)
    requires chain != [] && tx.number <= chain[|chain| - 1].number
    requires tx.number < lo < hi <= |c| && Window(chain, tx.number, tx.number + target) == c[lo..hi]
    ensures FromChain(LateAndSplice(e, tx, target, chain, node, t).result,
                      e.newFork || Diverges(e.blocks, c, tx.number, hi - tx.number), c, tx.number, hi, target)
  {
    SpliceOnChain(commit, e, lo, hi, tx.number, target, node, t, c);
    LateIsWindow(e, tx, target, chain, c[lo..hi], node, t);
  }

  lemma {:induction false} LateFromNode(
    commit: Hash -> Block, e: Early, tx: Block, target: nat, chain: seq<Block>, node: Script, t: nat, c: seq<Block>)
    requires Serves(node, c) && IsChain(c) && tx.number < |c| && c[tx.number] == tx && target > 0
    requires e.blocks != [] && e.blocks[0] == tx && Linked(e.blocks) && Genuine(commit, e.blocks) && Genuine(commit, c)
    requires chain != [] && tx.number <= chain[|chain| - 1].number && Window(chain, tx.number, tx.number + target) == []
    ensures var r, end := LateAndSplice(e, tx, target, chain, node, t).result, tx.number + target;
            if end < |c| then
              FromChain(r, e.newFork || Diverges(e.blocks, c, tx.number, target + 1), c, tx.number, end + 1, target)
            else r == Rejected(BlockNotAvailable)
  {
    if tx.number + target < |c| {
      LateFromTarget(commit, e, tx, target, chain, node, t, c);
    }
  }

  lemma {:induction false} LateFromTarget(
    commit: Hash -> Block, e: Early, tx: Block, target: nat, chain: seq<Block>, node: Script, t: nat, c: seq<Block>)
    requires Serves(node, c) && IsChain(c) && target > 0 && tx.number + target < |c| && c[tx.number] == tx
    requires e.blocks != [] && e.blocks[0] == tx && Linked(e.blocks) && Genuine(commit, e.blocks) && Genuine(commit, c)
    requires chain != [] && tx.number <= chain[|chain| - 1].number && Window(chain, tx.number, tx.number + target) == []
    ensures FromChain(LateAndSplice(e, tx, target, chain, node, t).result,
                      e.newFork || Diverges(e.blocks, c, tx.number, target + 1), c, tx.number, tx.number + target + 1,
                      target)
  {
    var end := tx.number + target;
    assert [c[end]] == c[end..end + 1];
    SpliceOnChain(commit, e, end, end + 1, tx.number, target, node, t + 1, c);
    LateIsTarget(e, tx, target, chain, c[end], node, t);
  }

  lemma {:induction false} LateIsWindow(
    e: Early, tx: Block, target: nat, chain: seq<Block>, late: seq<Block>, node: Script, t: nat)
    requires e.blocks != [] && e.blocks[0] == tx && chain != [] && tx.number <= chain[|chain| - 1].number
    requires late != [] && late == Window(chain, tx.number, tx.number + target)
    ensures LateAndSplice(e, tx, target, chain, node, t) == SpliceLists(e, late, target, node, t)
  {
  }

  lemma {:induction false} LateIsTarget(
    e: Early, tx: Block, target: nat, chain: seq<Block>, b: Block, node: Script, t: nat)
    requires e.blocks != [] && e.blocks[0] == tx && chain != [] && tx.number <= chain[|chain| - 1].number
    requires Window(chain, tx.number, tx.number + target) == [] && node.Answer(t, tx.number + target) == Found(b)
    ensures LateAndSplice(e, tx, target, chain, node, t) == SpliceLists(e, [b], target, node, t + 1)
  {
  }

  lemma {:induction false} EarlyListGenuine(commit: Hash -> Block, existing: seq<Block>, tx: Block)
    requires Genuine(commit, existing) && commit(tx.hash) == tx
    ensures Genuine(commit, EarlyList(existing, tx).blocks)
  {
  }

  // A linked list that connects to memory is the chain up to there
  lemma {:induction false} EarlyConnects(
    commit: Hash -> Block, blocks: seq<Block>, n: nat, chain: seq<Block>, c: seq<Block>)
    requires IsChain(c) && n < |c| && (chain == [] || IsSegment(chain, c))
    requires blocks != [] && blocks[0] == c[n] && Linked(blocks) && Genuine(commit, blocks) && Genuine(commit, c)
    requires ConnectsTo(blocks[|blocks| - 1], chain)
    ensures chain != [] && n + |blocks| <= chain[|chain| - 1].number < |c| && blocks == c[n..n + |blocks|]
  {
    var last := blocks[|blocks| - 1];
    var k := FirstAbove(chain, last.number, 0);
    SegmentTail(chain, c);
    LinkedNumbers(c, n);
    LinkedNumbers(blocks, |blocks| - 1);
    var m := chain[0].number + k;
    assert chain[k] == c[m];
    LinkedNumbers(c, m);
    LinksAgree(commit, blocks, c, n, m);
  }

  lemma {:induction false} EarlyOnChain(
    commit: Hash -> Block, blocks: seq<Block>, tx: Block, target: nat, chain1: seq<Block>, chain2: seq<Block>,
    c: seq<Block>)
    requires IsChain(c) && tx.number < |c| && c[tx.number] == tx && target > 0 && InMemory(chain1, chain2, c)
    requires blocks != [] && blocks[0] == tx && Linked(blocks) && Genuine(commit, blocks) && Genuine(commit, c)
    requires EarlyListSuffices(blocks, tx, target, chain1) && |blocks| > target
    requires chain2 != [] ==> chain2[|chain2| - 1].number < |c|
    ensures Reference(c, chain2, tx.number, target) == Blocks(blocks[..target + 1])
    ensures !Diverges(blocks, c, tx.number, target + 1)
  {
    EarlyConnects(commit, blocks, tx.number, chain1, c);
    SegmentTail(chain2, c);
    assert blocks[..target + 1] == c[tx.number..tx.number + target + 1];
  }

  // The list given is long enough
  lemma {:induction false} BuildFromEarly(
    commit: Hash -> Block, existing: seq<Block>, tx: Block, target: nat, chain1: seq<Block>, chain2: seq<Block>,
    node: Script, t: nat, c: seq<Block>)
    requires IsChain(c) && tx.number < |c| && c[tx.number] == tx && target > 0
    requires Genuine(commit, existing) && Genuine(commit, c) && InMemory(chain1, chain2, c)
    requires chain2 != [] ==> chain2[|chain2| - 1].number < |c|
    requires EarlyListSuffices(EarlyList(existing, tx).blocks, tx, target, chain1)
    ensures AsReference(Build(existing, tx, target, chain1, chain2, node, t).result,
                        Reference(c, chain2, tx.number, target), EarlyList(existing, tx), c, tx.number, target)
    ensures !EarlyList(existing, tx).newFork
  {
    EarlyListLinked(existing, tx);
    EarlyListGenuine(commit, existing, tx);
    EarlyListLength(existing, tx, target);
    EarlyOnChain(commit, EarlyList(existing, tx).blocks, tx, target, chain1, chain2, c);
  }

  lemma {:induction false} BuildFromLate(
    commit: Hash -> Block, existing: seq<Block>, tx: Block, target: nat, chain1: seq<Block>, chain2: seq<Block>,
    node: Script, t: nat, c: seq<Block>)
    requires Serves(node, c) && IsChain(c) && tx.number < |c| && c[tx.number] == tx && target > 0
    requires Genuine(commit, existing) && Genuine(commit, c) && InMemory(chain1, chain2, c)
    requires chain2 != [] ==> chain2[|chain2| - 1].number < |c|
    requires !EarlyListSuffices(EarlyList(existing, tx).blocks, tx, target, chain1)
    ensures AsReference(Build(existing, tx, target, chain1, chain2, node, t).result,
                        Reference(c, chain2, tx.number, target), EarlyList(existing, tx), c, tx.number, target)
  {
    EarlyListLinked(existing, tx);
    EarlyListGenuine(commit, existing, tx);
    SegmentOffers(chain2, tx.number, tx.number + target, c);
    LateOnChain(commit, EarlyList(existing, tx), tx, target, chain2, node, t, c);
    BuildIsLate(existing, tx, target, chain1, chain2, node, t);
  }

  /** Against a node that serves one chain, the outcome is that of the reference, which knows nothing of the list
      the caller gave. NewFork is set exactly when a fork is visible. */
  lemma {:induction false} BuildOnChain(
    commit: Hash -> Block, existing: seq<Block>, tx: Block, target: nat, chain1: seq<Block>, chain2: seq<Block>,
    node: Script, t: nat, c: seq<Block>)
    requires Serves(node, c) && IsChain(c) && tx.number < |c| && c[tx.number] == tx && target > 0
    requires Genuine(commit, existing) && Genuine(commit, c) && InMemory(chain1, chain2, c)
    requires chain2 != [] ==> chain2[|chain2| - 1].number < |c|
    ensures var r := Build(existing, tx, target, chain1, chain2, node, t).result;
            && Agrees(r, Reference(c, chain2, tx.number, target))
            && (r.Confirmations? ==>
                 && r.confirmed == (|r.blocks| > target)
                 && (r.newFork <==> ForkVisible(existing, tx, c, |r.blocks|)))
  {
    if EarlyListSuffices(EarlyList(existing, tx).blocks, tx, target, chain1) {
      BuildFromEarly(commit, existing, tx, target, chain1, chain2, node, t, c);
    } else {
      BuildFromLate(commit, existing, tx, target, chain1, chain2, node, t, c);
    }
    var r := Build(existing, tx, target, chain1, chain2, node, t).result;
    if r.Confirmations? {
      ForkIsVisible(existing, tx, c, |r.blocks|);
    }
  }

  lemma {:induction false} ForkIsVisible(existing: seq<Block>, tx: Block, c: seq<Block>, length: nat)
    requires tx.number < |c| && c[tx.number] == tx
    ensures var e := EarlyList(existing, tx);
            ForkVisible(existing, tx, c, length) <==> e.newFork || Diverges(e.blocks, c, tx.number, length)
  {
    EarlyListExactly(existing, tx);
    if existing != [] && existing[0] == tx {
      DivergesWithin(EarlyList(existing, tx).blocks, existing, c, tx.number, length);
    }
  }

  lemma {:induction false} BuildIsLate(
    existing: seq<Block>, tx: Block, target: nat, chain1: seq<Block>, chain2: seq<Block>, node: Script, t: nat)
    requires !EarlyListSuffices(EarlyList(existing, tx).blocks, tx, target, chain1)
    ensures Build(existing, tx, target, chain1, chain2, node, t)
            == LateAndSplice(EarlyList(existing, tx), tx, target, chain2, node, t)
    ensures EarlyList(existing, tx).newFork <==> existing != [] && existing[0] != tx
  {
  }

  /** History independence: however stale, forked or gapped the list given is, the confirmations (or the failure)
      are those of starting with no list. */
  lemma {:induction false} HistoryIndependence(
    commit: Hash -> Block, existing: seq<Block>, tx: Block, target: nat, chain1: seq<Block>, chain2: seq<Block>,
    node: Script, t: nat, t': nat, c: seq<Block>)
    requires Serves(node, c) && IsChain(c) && tx.number < |c| && c[tx.number] == tx && target > 0
    requires Genuine(commit, existing) && Genuine(commit, c) && InMemory(chain1, chain2, c)
    ensures var r := Build(existing, tx, target, chain1, chain2, node, t).result;
            var r0 := Build([], tx, target, chain1, chain2, node, t').result;
            && r.Confirmations? == r0.Confirmations?
            && (r.Confirmations? ==> r.blocks == r0.blocks && r.confirmed == r0.confirmed)
            && (r.Rejected? ==> r.failure == r0.failure)
  {
    if chain2 != [] {
      SegmentTail(chain2, c);
    }
    BuildOnChain(commit, existing, tx, target, chain1, chain2, node, t, c);
    BuildOnChain(commit, [], tx, target, chain1, chain2, node, t', c);
  }

  /** With a target of zero, building a list would give the transaction block alone if the linked part of the list
      given connects to memory, and would fail if not. So it would not depend on the history, if and only if
      that part connects exactly when the transaction block itself does. */
  lemma {:induction false} TargetZeroOutcome(
    existing: seq<Block>, tx: Block, chain1: seq<Block>, chain2: seq<Block>, node: Script, t: nat, t': nat,
    c: seq<Block>)
    requires Serves(node, c) && IsChain(c) && tx.number < |c| && c[tx.number] == tx
    ensures var early := EarlyList(existing, tx).blocks;
            var connects := ConnectsTo(early[|early| - 1], chain1);
            var behind := chain2 == [] || chain2[|chain2| - 1].number < tx.number;
            var r, r0 := Build(existing, tx, 0, chain1, chain2, node, t).result,
              Build([], tx, 0, chain1, chain2, node, t').result;
            && r == (if connects then Confirmations([tx], true, false, false)
                     else Rejected(if behind then NotCaughtUp else CannotBuild))
            && (r == r0 <==> (connects <==> ConnectsTo(tx, chain1)))
  {
    EarlyListLinked(existing, tx);
    var early := EarlyList(existing, tx).blocks;
    LinkedNumbers(early, |early| - 1);
    assert early[..1] == [tx] && [tx][..1] == [tx];
  }

  /** A target of zero is answered before a list is built. Were it not, the outcome would depend on the history. */
  lemma {:induction false} HistoryMattersForTargetZero()
    ensures var c := [Block(0, 10, 0), Block(1, 11, 10), Block(2, 12, 11)];
            var node := Script((t: nat, n: nat) => if n < |c| then Found(c[n]) else Missing);
            && Serves(node, c) && IsChain(c) && IsSegment(c[2..], c)
            && Build(c[..2], c[0], 0, c[2..], c[2..], node, 0).result == Confirmations([c[0]], true, false, false)
            && Build([], c[0], 0, c[2..], c[2..], node, 0).result == Rejected(CannotBuild)
  {
  }

  // ----- The algorithm -----

  class Splice {
    var earlyList: seq<Block>
    var lateList: seq<Block>

    constructor (earlyList: seq<Block>, lateList: seq<Block>)
      ensures this.earlyList == earlyList && this.lateList == lateList
    {
      this.earlyList := earlyList;
      this.lateList := lateList;
    }

    static method NewSplice(earlyList: seq<Block>, lateList: seq<Block>) returns (s: Splice, detectedFork: bool)
      requires earlyList != [] && lateList != [] && earlyList[0].number <= lateList[0].number
      ensures fresh(s) && s.lateList == lateList
      ensures (s.earlyList, detectedFork) == Trim(earlyList, lateList)
    {
      s := new Splice(earlyList, lateList);
      detectedFork := false;
      var d := lateList[0].number - earlyList[0].number;
      if |earlyList| + earlyList[0].number > lateList[0].number {
        var discarded := earlyList[d..];
        var i := 0;
        while i < |discarded| && i < |lateList|
          invariant forall j :: 0 <= j < i && j < |discarded| && j < |lateList| ==> discarded[j] == lateList[j]
          invariant s.earlyList == earlyList && s.lateList == lateList && !detectedFork
        {
          if discarded[i] != lateList[i] {
            detectedFork := true;
            break;
          }
          i := i + 1;
        }
        s.earlyList := earlyList[..d];
      }
    }

    predicate HasGap()
      reads this
    {
      earlyList != [] && lateList != [] && earlyList[|earlyList| - 1].number + 1 < lateList[0].number
    }

    method FillOneGap(node: Node) returns (failure: Option<Failure>)
      requires lateList != [] && lateList[0].number > 0
      modifies this`lateList, node
      ensures node.queries == old(node.queries) + 1
      ensures match node.script.Answer(old(node.queries), old(lateList)[0].number - 1)
              case Failed => failure == Some(QueryFailed)
              case Missing => failure == Some(NilBlock)
              case Found(b) =>
                if b.IsParentOf(old(lateList)[0]) then failure == None && lateList == [b] + old(lateList)
                else failure == Some(CannotBuild)
      ensures failure.Some? ==> lateList == old(lateList)
    {
      var reply := node.GetBlockInfoByNumber(lateList[0].number - 1);
      if reply.Failed? {
        return Some(QueryFailed);
      }
      if reply.Missing? {
        return Some(NilBlock);
      }
      if !reply.block.IsParentOf(lateList[0]) {
        return Some(CannotBuild);
      }
      lateList := [reply.block] + lateList;
      failure := None;
    }

    method RemoveBrokenLink()
      requires earlyList != []
      modifies this`earlyList
      ensures earlyList == old(earlyList)[..|old(earlyList)| - 1]
    {
      earlyList := earlyList[..|earlyList| - 1];
    }

    method ToSingleLinkedList() returns (blocks: Option<seq<Block>>)
      requires earlyList != [] && lateList != []
      ensures blocks == if earlyList[|earlyList| - 1].IsParentOf(lateList[0]) then Some(earlyList + lateList) else None
    {
      blocks := None;
      if earlyList[|earlyList| - 1].IsParentOf(lateList[0]) {
        blocks := Some(earlyList + lateList);
      }
    }
  }

  method CreatePreSpliceEarlyList(existing: seq<Block>, tx: Block) returns (e: Early)
    ensures e == EarlyList(existing, tx)
    ensures existing != [] && existing[0] == tx ==> LongestLinked(e.blocks, existing)
  {
    EarlyListExactly(existing, tx);
    var earlyList, newFork, rebuilt := [], false, false;
    if |existing| > 0 {
      if existing[0] != tx {
        newFork := true;
      } else {
        earlyList := [tx];
        var i := 1;
        while i < |existing|
          invariant 1 <= i <= |existing| && earlyList == existing[..i] && !rebuilt
          invariant LinkedEnd(existing, i) == LinkedEnd(existing, 1)
        {
          if !earlyList[i - 1].IsParentOf(existing[i]) {
            rebuilt := true;
            break;
          }
          earlyList := earlyList + [existing[i]];
          i := i + 1;
        }
      }
    }
    if |earlyList| == 0 {
      earlyList := [tx];
    }
    e := Early(earlyList, newFork, rebuilt);
  }

  method HandleTargetCountMetWithEarlyList(
    blocks: seq<Block>, target: nat, chain: seq<Block>)
    returns (r: Option<Result>)
    requires |blocks| > target
    ensures r == if ConnectsTo(blocks[|blocks| - 1], chain) then
                   Some(Confirmations(blocks[..target + 1], true, false, false))
                 else None
  {
    var last := blocks[|blocks| - 1];
    var next: Option<Block> := None;
    var pos := 0;
    while pos < |chain|
      invariant pos <= |chain| && FirstAbove(chain, last.number, pos) == FirstAbove(chain, last.number, 0)
      invariant next.Some? ==> next.value.number <= last.number
    {
      next := Some(chain[pos]);
      if next.value.number >= last.number + 1 {
        break;
      }
      pos := pos + 1;
    }
    r := None;
    if next.Some? && last.IsParentOf(next.value) {
      r := Some(Confirmations(blocks[..target + 1], true, false, false));
    }
  }

  method BuildQueueUsingInMemoryChain(tx: Block, target: nat, chain: seq<Block>) returns (blocks: Option<seq<Block>>)
    ensures blocks.None? <==> chain == [] || chain[|chain| - 1].number < tx.number
    ensures blocks.Some? ==> blocks.value == Window(chain, tx.number, tx.number + target)
  {
    if chain == [] || chain[|chain| - 1].number < tx.number {
      return None;
    }
    var queue := [];
    var pos := 0;
    while pos < |chain|
      invariant pos <= |chain|
      invariant queue + Window(chain[pos..], tx.number, tx.number + target)
                == Window(chain, tx.number, tx.number + target)
    {
      assert chain[pos..][1..] == chain[pos + 1..];
      if chain[pos].number > tx.number + target {
        break;
      }
      if chain[pos].number > tx.number {
        assert queue + Window(chain[pos..], tx.number, tx.number + target)
            == queue + [chain[pos]] + Window(chain[pos + 1..], tx.number, tx.number + target);
        queue := queue + [chain[pos]];
      }
      pos := pos + 1;
    }
    blocks := Some(queue);
  }

  method BuildConfirmationList(
    existing: seq<Block>, tx: Block, target: nat, chain1: seq<Block>, chain2: seq<Block>, node: Node)
    returns (r: Result)
    modifies node
    ensures Joined(r, node.queries) == Build(existing, tx, target, chain1, chain2, node.script, old(node.queries))
  {
    var e := CreatePreSpliceEarlyList(existing, tx);
    if e.blocks[|e.blocks| - 1].number >= tx.number + target {
      EarlyListLength(existing, tx, target);
      var early := HandleTargetCountMetWithEarlyList(e.blocks, target, chain1);
      if early.Some? {
        return early.value;
      }
    }
    r := SpliceWithLateList(e, tx, target, chain2, node);
  }

  // BuildConfirmationList once the early list alone does not do
  method SpliceWithLateList(e: Early, tx: Block, target: nat, chain: seq<Block>, node: Node) returns (r: Result)
    requires e.blocks != [] && e.blocks[0] == tx
    modifies node
    ensures Joined(r, node.queries) == LateAndSplice(e, tx, target, chain, node.script, old(node.queries))
  {
    var inMemory := BuildQueueUsingInMemoryChain(tx, target, chain);
    if inMemory.None? {
      return Rejected(NotCaughtUp);
    }
    var lateList := inMemory.value;
    if |lateList| == 0 {
      var reply := node.GetBlockInfoByNumber(tx.number + target);
      if reply.Failed? {
        return Rejected(QueryFailed);
      }
      if reply.Missing? {
        return Rejected(BlockNotAvailable);
      }
      lateList := [reply.block];
    }
    r := JoinLists(e, lateList, target, node);
  }

  method JoinLists(e: Early, lateList: seq<Block>, target: nat, node: Node) returns (r: Result)
    requires e.blocks != [] && lateList != [] && e.blocks[0].number <= lateList[0].number
    modifies node
    ensures Joined(r, node.queries) == SpliceLists(e, lateList, target, node.script, old(node.queries))
  {
    var s, detectedFork := Splice.NewSplice(e.blocks, lateList);
    var newFork := e.newFork || detectedFork;
    ghost var joined := Join(s.earlyList, s.lateList, e.(newFork := newFork), target, node.script, node.queries);
    while true
      invariant s.lateList != []
      invariant joined == Join(s.earlyList, s.lateList, e.(newFork := newFork), target, node.script, node.queries)
      decreases |s.earlyList|
    {
      if |s.earlyList| == 0 {
        return Rejected(CannotBuild);
      }
      ghost var earlyList := s.earlyList;
      while s.HasGap()
        invariant s.lateList != [] && s.earlyList == earlyList
        invariant joined == Join(s.earlyList, s.lateList, e.(newFork := newFork), target, node.script, node.queries)
        decreases s.lateList[0].number
      {
        var failure := s.FillOneGap(node);
        if failure.Some? {
          return Rejected(failure.value);
        }
      }
      var confirmations := s.ToSingleLinkedList();
      if confirmations.Some? {
        return Confirmations(confirmations.value, |confirmations.value| > target, newFork, e.rebuilt);
      }
      newFork := true;
      s.RemoveBrokenLink();
    }
  }
}

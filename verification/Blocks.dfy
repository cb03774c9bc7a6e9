/**
 Blocks, hash-linked lists of blocks, and the JSON/RPC node that is asked for them.

 The node is an oracle: it may answer the same question differently each time it is asked.
 Theorems about structure hold for every such node. Theorems about agreement are about a node
 that serves one unchanging chain.
 */
module Blocks {

  datatype Option<+T> = None | Some(value: T)

  function Min(a: int, b: int): int { if a < b then a else b }

  function Max(a: int, b: int): int { if a > b then a else b }

  // A hash is only ever compared for equality
  type Hash = nat

  datatype Block = Block(number: nat, hash: Hash, parentHash: Hash) {
    predicate IsParentOf(other: Block) {
      hash == other.parentHash && number + 1 == other.number
    }
  }

  // Every block is the parent of the one after it
  ghost predicate Linked(blocks: seq<Block>) {
    forall i, j :: 0 <= i && j == i + 1 && j < |blocks| ==> blocks[i].IsParentOf(blocks[j])
  }

  // A whole chain from block zero
  ghost predicate IsChain(chain: seq<Block>) {
    Linked(chain) && (chain != [] ==> chain[0].number == 0)
  }

  // A non-empty run of consecutive blocks of the chain
  ghost predicate IsSegment(blocks: seq<Block>, chain: seq<Block>) {
    && blocks != []
    && blocks[0].number + |blocks| <= |chain|
    && blocks == chain[blocks[0].number..blocks[0].number + |blocks|]
  }

  // A hash commits to its block: "commit" recovers the block from the hash
  ghost predicate Genuine(commit: Hash -> Block, blocks: seq<Block>) {
    forall i :: 0 <= i < |blocks| ==> commit(blocks[i].hash) == blocks[i]
  }

  lemma {:induction false} LinkedNumbers(blocks: seq<Block>, i: nat)
    requires Linked(blocks) && i < |blocks|
    ensures blocks[i].number == blocks[0].number + i
  {
    if i > 0 {
      LinkedNumbers(blocks, i - 1);
      assert blocks[i - 1].IsParentOf(blocks[i]);
    }
  }

  lemma {:induction false} AllNumbers(blocks: seq<Block>)
    requires Linked(blocks)
    ensures forall i :: 0 <= i < |blocks| ==> blocks[i].number == blocks[0].number + i
  {
    forall i | 0 <= i < |blocks|
      ensures blocks[i].number == blocks[0].number + i
    {
      LinkedNumbers(blocks, i);
    }
  }

  /** One block that belongs to a chain vouches for every block linked behind it. */
  lemma {:induction false} MatchValidatesPrefix(commit: Hash -> Block, blocks: seq<Block>, chain: seq<Block>, k: nat)
    requires Linked(blocks) && IsChain(chain)
    requires Genuine(commit, blocks) && Genuine(commit, chain)
    requires k < |blocks| && blocks[k].number < |chain| && blocks[k].hash == chain[blocks[k].number].hash
    ensures blocks[0].number + k < |chain|
    ensures blocks[..k + 1] == chain[blocks[0].number..blocks[0].number + k + 1]
  {
    LinkedNumbers(blocks, k);
    var n := blocks[0].number;
    assert blocks[k] == chain[n + k];
    if k > 0 {
      assert blocks[k - 1].IsParentOf(blocks[k]);
      assert chain[n + k - 1].IsParentOf(chain[n + k]);
      LinkedNumbers(blocks, k - 1);
      MatchValidatesPrefix(commit, blocks, chain, k - 1);
      assert blocks[..k + 1] == blocks[..k] + [blocks[k]];
      assert chain[n..n + k + 1] == chain[n..n + k] + [chain[n + k]];
    }
  }

  lemma {:induction false} SplitRange(c: seq<Block>, i: nat, j: nat, k: nat)
    requires i <= j <= k <= |c|
    ensures c[i..j] + c[j..k] == c[i..k]
  {
  }

  // The outcome of asking the node for a block. Failed is an error that is not retried any further.
  datatype Reply = Found(block: Block) | Missing | Failed

  // Block numbers that do not fit an int64 cannot occur
  const MAX_BLOCK: nat := 0x7fff_ffff_ffff_ffff

  // What the node answers to its t-th query, when that query is for block n. The answers are unconstrained,
  // but a block that is found has the number that was asked for: anything else counts as not found.
  datatype Script = Script(reply: (nat, nat) -> Reply) {
    function Answer(t: nat, n: nat): (r: Reply)
      ensures r.Found? ==> r.block.number == n && n <= MAX_BLOCK
    {
      var r := reply(t, n);
      if r.Found? && (r.block.number != n || n > MAX_BLOCK) then Missing else r
    }
  }

  // The node serves one chain for good
  ghost predicate Serves(node: Script, chain: seq<Block>) {
    forall t: nat, n: nat :: node.Answer(t, n) == if n < |chain| then Found(chain[n]) else Missing
  }

  class Node {
    const script: Script
    var queries: nat

    constructor (script: Script)
      ensures this.script == script && queries == 0
    {
      this.script := script;
      queries := 0;
    }

    method GetBlockInfoByNumber(number: nat) returns (reply: Reply)
      modifies this
      ensures queries == old(queries) + 1
      ensures reply == script.Answer(old(queries), number)
    {
      reply := script.Answer(queries, number);
      queries := queries + 1;
    }
  }
}

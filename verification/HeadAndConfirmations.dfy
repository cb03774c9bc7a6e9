/**
 The block listener and the confirmation reconciler together.
 */
module HeadAndConfirmations {
  import opened Blocks
  import CanonicalChain
  import ConfirmationReconciler

  /** Once the head of the chain is reconciled, from whatever list was held before (unless the head lies below a stale
      tail), a transaction in an earlier block gets exactly the chain from its block on, up to the target or the
      head, and whatever list the caller gives. It is confirmed exactly when the head is at least the target away. A
      transaction in the head block itself is refused for want of the target block. */
  lemma {:induction false} ConfirmationsFollowTheHead(
    commit: Hash -> Block, v: CanonicalChain.View, monitored: nat, node: Script, t: nat,
    existing: seq<Block>, tx: Block, target: nat, t': nat, c: seq<Block>)
    requires monitored > 0 && Serves(node, c) && IsChain(c) && c != [] && Linked(v.chain)
    requires Genuine(commit, v.chain) && Genuine(commit, c) && Genuine(commit, existing)
    requires !CanonicalChain.BelowStaleTail(c[|c| - 1], v.chain)
    requires tx.number < |c| && c[tx.number] == tx && target > 0
    ensures var chain := CanonicalChain.Reconcile(v, c[|c| - 1], monitored, node, t).view.chain;
            var r := ConfirmationReconciler.Build(existing, tx, target, chain, chain, node, t').result;
            if tx.number == |c| - 1 then
              r == ConfirmationReconciler.Rejected(ConfirmationReconciler.BlockNotAvailable)
            else
              && r.Confirmations?
              && r.blocks == c[tx.number..Min(|c| - 1, tx.number + target) + 1]
              && (r.confirmed <==> tx.number + target <= |c| - 1)
  {
    var chain := CanonicalChain.Reconcile(v, c[|c| - 1], monitored, node, t).view.chain;
    CanonicalChain.ReconcileConverges(commit, v, monitored, node, t, c);
    LinkedNumbers(c, |c| - 1);
    FromHead(commit, chain, existing, tx, target, node, t', c);
  }

  lemma {:induction false} FromHead(
    commit: Hash -> Block, chain: seq<Block>, existing: seq<Block>, tx: Block, target: nat, node: Script, t: nat,
    c: seq<Block>)
    requires Serves(node, c) && IsChain(c) && Genuine(commit, c) && Genuine(commit, existing)
    requires IsSegment(chain, c) && chain[|chain| - 1].number == |c| - 1
    requires tx.number < |c| && c[tx.number] == tx && target > 0
    ensures var r := ConfirmationReconciler.Build(existing, tx, target, chain, chain, node, t).result;
            if tx.number == |c| - 1 then
              r == ConfirmationReconciler.Rejected(ConfirmationReconciler.BlockNotAvailable)
            else
              && r.Confirmations?
              && r.blocks == c[tx.number..Min(|c| - 1, tx.number + target) + 1]
              && (r.confirmed <==> tx.number + target <= |c| - 1)
  {
    ConfirmationReconciler.SegmentTail(chain, c);
    ConfirmationReconciler.BuildOnChain(commit, existing, tx, target, chain, chain, node, t, c);
  }
}

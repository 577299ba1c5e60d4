/**
 * The context pruner: one ordered pass over the conversation that keeps the
 * first system message (the anchor instruction), drops the next `k` system
 * messages, and keeps everything else.
 */
module ContextPruner {
  import opened Messages

  /** A message arriving after `before` is dropped when it is a system message,
      an anchor already precedes it, and at most `k` system messages precede it
      (so it is one of the 2nd through (k+1)-th system messages). */
  predicate InRemovalWindow(before: seq<Message>, m: Message, k: int) {
    m.role == System && 1 <= SystemCount(before) <= k
  }

  /** What the pass keeps, message by message, judged on what came before it. */
  function Prune(context: seq<Message>, k: int): seq<Message> {
    if context == [] then []
    else
      var before, m := context[..|context| - 1], context[|context| - 1];
      Prune(before, k) + (if InRemovalWindow(before, m, k) then [] else [m])
  }

  /** The positions of `context` that the pass keeps, in increasing order. */
  ghost function KeptIndices(context: seq<Message>, k: int): seq<nat> {
    if context == [] then []
    else
      var n := |context| - 1;
      KeptIndices(context[..n], k) + (if InRemovalWindow(context[..n], context[n], k) then [] else [n])
  }

  /** How many messages the pass drops: every system message after the anchor, up to the budget. */
  function RemovedCount(context: seq<Message>, k: int): nat {
    var later := SystemCount(context) - 1;
    if later <= 0 || k <= 0 then 0 else if later < k then later else k
  }

  /**
   * The pruning loop with its budget counter and anchor flag. It builds a
   * fresh list and leaves its argument untouched.
   */
  method RemoveSystemMessages(context: seq<Message>, numToRemove: int := 3) returns (newContext: seq<Message>)
    ensures newContext == Prune(context, numToRemove)
  {
    var countRemoved := 0;
    var firstHitSkipped := false;
    newContext := [];
    for i := 0 to |context|
      invariant newContext == Prune(context[..i], numToRemove)
      invariant countRemoved == RemovedCount(context[..i], numToRemove)
      invariant firstHitSkipped <==> SystemCount(context[..i]) > 0
    {
      var message := context[i];
      assert context[..i + 1][..i] == context[..i];
      if message.role == System {
        if !firstHitSkipped {
          firstHitSkipped := true;
          newContext := newContext + [message];
          continue;
        }
        if countRemoved < numToRemove {
          countRemoved := countRemoved + 1;
          continue;
        }
      }
      newContext := newContext + [message];
    }
    assert context[..|context|] == context;
  }

  /** Exact bookkeeping: the pass drops `RemovedCount` messages, all of them
      system messages, and the user/assistant messages come through unchanged. */
  lemma {:induction false} PruneCounts(context: seq<Message>, k: int)
    ensures |Prune(context, k)| == |context| - RemovedCount(context, k)
    ensures SystemCount(Prune(context, k)) == SystemCount(context) - RemovedCount(context, k)
    ensures NonSystem(Prune(context, k)) == NonSystem(context)
  {
    if context != [] {
      var before, m := context[..|context| - 1], context[|context| - 1];
      PruneCounts(before, k);
      var p0 := Prune(before, k);
      var dropped := InRemovalWindow(before, m, k);
      assert context == before + [m];
      SystemCountSnoc(before, m);
      NonSystemSnoc(before, m);
      assert RemovedCount(context, k) == RemovedCount(before, k) + (if dropped then 1 else 0);
      if dropped {
        assert Prune(context, k) == p0;
      } else {
        assert Prune(context, k) == p0 + [m];
        SystemCountSnoc(p0, m);
        NonSystemSnoc(p0, m);
      }
    }
  }

  /** The budget bound: at most `k` messages go (none for a non-positive `k`),
      and no user or assistant message is among them. */
  lemma PruneWithinBudget(context: seq<Message>, k: int)
    ensures |context| - (if k < 0 then 0 else k) <= |Prune(context, k)| <= |context|
    ensures NonSystem(Prune(context, k)) == NonSystem(context)
  {
    PruneCounts(context, k);
  }

  /** The first message of the list always survives, in first place. */
  lemma {:induction false} PruneKeepsHead(context: seq<Message>, k: int)
    requires context != []
    ensures Prune(context, k) != [] && Prune(context, k)[0] == context[0]
  {
    var before := context[..|context| - 1];
    if before != [] {
      PruneKeepsHead(before, k);
    }
  }

  /** The anchor instruction is kept: the pruned list's first system message
      is the input's first system message. */
  lemma {:induction false} PruneKeepsAnchor(context: seq<Message>, k: int)
    ensures FirstSystem(Prune(context, k)) == FirstSystem(context)
  {
    if context != [] {
      var before, m := context[..|context| - 1], context[|context| - 1];
      assert context == before + [m];
      PruneKeepsAnchor(before, k);
      FirstSystemSnoc(before, m);
      if !InRemovalWindow(before, m, k) {
        FirstSystemSnoc(Prune(before, k), m);
      } else {
        FirstSystemExists(before);
        assert Prune(context, k) == Prune(before, k);
      }
    }
  }

  /** With no budget, or with no system message beyond the anchor, the pass
      returns a list equal to its input. */
  lemma {:induction false} PruneIdentity(context: seq<Message>, k: int)
    requires k <= 0 || SystemCount(context) <= 1
    ensures Prune(context, k) == context
  {
    if context != [] {
      var before, m := context[..|context| - 1], context[|context| - 1];
      assert context == before + [m];
      SystemCountSnoc(before, m);
      PruneIdentity(before, k);
    }
  }

  /** The output lists the input's messages at strictly increasing kept
      positions: an order-preserving subsequence with no message taken twice. */
  lemma {:induction false} PruneSelectsKeptIndices(context: seq<Message>, k: int)
    ensures |KeptIndices(context, k)| == |Prune(context, k)|
    ensures forall t :: 0 <= t < |KeptIndices(context, k)| ==>
      KeptIndices(context, k)[t] < |context| && Prune(context, k)[t] == context[KeptIndices(context, k)[t]]
    ensures forall t, u :: 0 <= t < u < |KeptIndices(context, k)| ==>
      KeptIndices(context, k)[t] < KeptIndices(context, k)[u]
  {
    if context != [] {
      PruneSelectsKeptIndices(context[..|context| - 1], k);
    }
  }

  /** Exactly which messages go: a position is kept exactly when its message
      is outside the removal window, i.e. is not among the 2nd through
      (k+1)-th system messages. */
  lemma {:induction false} KeptIndicesOutsideWindow(context: seq<Message>, k: int)
    ensures forall j :: 0 <= j < |context| ==>
      (j in KeptIndices(context, k) <==> !InRemovalWindow(context[..j], context[j], k))
  {
    if context != [] {
      var n := |context| - 1;
      var before := context[..n];
      KeptIndicesOutsideWindow(before, k);
      PruneSelectsKeptIndices(before, k);
      var idx, idx0 := KeptIndices(context, k), KeptIndices(before, k);
      forall j | 0 <= j < |context|
        ensures j in idx <==> !InRemovalWindow(context[..j], context[j], k)
      {
        if j < n {
          assert before[..j] == context[..j] && before[j] == context[j];
          assert j in idx <==> j in idx0;
        } else {
          assert n !in idx0;
        }
      }
    }
  }

  /** Once no more than `k` system messages follow the anchor, the pass leaves
      at most the anchor among the system messages, and a second pass with the
      same budget changes nothing. */
  lemma PruneSaturates(context: seq<Message>, k: int)
    requires SystemCount(context) <= k + 1
    ensures SystemCount(Prune(context, k)) == (if SystemCount(context) == 0 then 0 else 1)
    ensures Prune(Prune(context, k), k) == Prune(context, k)
  {
    PruneCounts(context, k);
    PruneIdentity(Prune(context, k), k);
  }
}

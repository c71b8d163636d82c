/**
 How far recovery's "expired without payment" verdict depends on the chain being
 append-only. The verdict needs the tip at the transaction's validity end; with
 rollbacks it would need the tip almost a whole rollback depth beyond it.
 */
module ExpiredPayment {
  import opened Prelude
  import opened Ledger

  /** The transaction is on no block, and the tip is `margin` slots past its validity end. */
  predicate AbsenceEvidence(c: ChainState, tx: Tx, margin: nat) {
    tx.validUntil.Some? && !Included(c, tx) && c.tip >= tx.validUntil.value + margin
  }

  ghost predicate Sound(run: seq<ChainState>, margin: nat) {
    forall i: nat, j: nat, tx: Tx :: i <= j < |run| && AbsenceEvidence(run[i], tx, margin) ==> !Included(run[j], tx)
  }

  /** Every move of the run appends blocks. */
  ghost predicate Appends(run: seq<ChainState>) {
    forall i, j :: 0 <= i && j == i + 1 && j < |run| ==> Extended(run[i], run[j])
  }

  ghost predicate Extended(c: ChainState, c': ChainState) {
    exists slot, body :: ChainStep(c, Extend(slot, body), c')
  }

  lemma {:induction false} AbsentStaysAbsent(run: seq<ChainState>, i: nat, j: nat, tx: Tx)
    requires ChainRun(run) && Appends(run) && i <= j < |run| && AbsenceEvidence(run[i], tx, 0)
    ensures AbsenceEvidence(run[j], tx, 0)
    decreases j
  {
    hide ChainRun, ValidChain;
    if i < j {
      AbsentStaysAbsent(run, i, j - 1, tx);
      assert Extended(run[j - 1], run[j]);
      var slot, body :| ChainStep(run[j - 1], Extend(slot, body), run[j]);
      RunStaysValid(run, j - 1);
      LateBlockHoldsNo(run[j - 1], slot, body, run[j], tx);
    }
  }

  lemma LateBlockHoldsNo(c: ChainState, slot: Slot, body: seq<Entry>, c': ChainState, tx: Tx)
    requires ChainStep(c, Extend(slot, body), c') && AbsenceEvidence(c, tx, 0)
    ensures AbsenceEvidence(c', tx, 0)
  {
    forall e | e in c'.entries && e !in c.entries ensures InTime(e.tx, e.slot) {
      var k :| 0 <= k < |c'.entries| && c'.entries[k] == e;
      assert Includable(c'.entries[..k], e);
    }
  }

  /** On an append-only chain the tip at the validity end is enough. */
  lemma AppendOnlyVerdictIsSound(run: seq<ChainState>)
    requires ChainRun(run) && Appends(run)
    ensures Sound(run, 0)
  {
    hide ChainRun, Appends;
    forall i: nat, j: nat, tx: Tx | i <= j < |run| && AbsenceEvidence(run[i], tx, 0) ensures !Included(run[j], tx) {
      AbsentStaysAbsent(run, i, j, tx);
    }
  }

  ghost predicate SoundOnEveryChain(margin: nat) {
    forall run: seq<ChainState> :: ChainRun(run) ==> Sound(run, margin)
  }

  lemma {:induction false} FarPastStaysOut(run: seq<ChainState>, i: nat, j: nat, tx: Tx)
    requires ChainRun(run) && i <= j < |run| && tx.validUntil.Some?
    requires Dead(run[i], tx)
    ensures Dead(run[j], tx)
    decreases j
  {
    hide ChainStep, ValidChain, Dead;
    if i < j {
      FarPastStaysOut(run, i, j - 1, tx);
      RunStaysValid(run, j - 1);
      assert Follows(run[j - 1], run[j]);
      var move :| ChainStep(run[j - 1], move, run[j]);
      DeadStaysDead(run[j - 1], move, run[j], tx);
    }
  }

  /** The deepest rollback from a tip just past the validity end, then a block that is still early enough. */
  lemma EarlyVerdictFails(margin: nat) returns (run: seq<ChainState>)
    requires margin < ROLLBACK_SLOTS - 1
    ensures ChainRun(run) && !Sound(run, margin)
  {
    var coin := Genesis(0, Output(0, 1, NoDatum));
    var tx := Tx([coin], [], 1, Some(ROLLBACK_SLOTS), [], None, None);
    var tip := ROLLBACK_SLOTS + margin;
    var e := Entry(tx, margin + 1, true);
    var before, back, after := ChainState([], tip, tip), ChainState([], margin, tip), ChainState([e], margin + 1, tip);
    assert ChainStep(before, Rollback(margin, 0), back);
    assert [] + [e] == [e];
    assert Includable([e][..0], e);
    assert ChainStep(back, Extend(margin + 1, [e]), after);
    run := [before, back, after];
    assert Follows(before, back) && Follows(back, after);
    assert e in after.entries;
    assert AbsenceEvidence(run[0], tx, margin) && Included(run[2], tx);
  }

  /**
   With rollbacks the verdict is sound exactly when the tip is at least the
   rollback depth, less one slot, past the validity end; recovery asks for none.
   */
  lemma VerdictSurvivesRollbacksExactly(margin: nat)
    ensures SoundOnEveryChain(margin) <==> margin >= ROLLBACK_SLOTS - 1
  {
    if margin >= ROLLBACK_SLOTS - 1 {
      forall run: seq<ChainState>, i: nat, j: nat, tx: Tx | ChainRun(run) && i <= j < |run| && AbsenceEvidence(run[i], tx, margin)
        ensures !Included(run[j], tx)
      {
        RunStaysValid(run, i);
        FarPastStaysOut(run, i, j, tx);
      }
    } else {
      var run := EarlyVerdictFails(margin);
    }
  }
}

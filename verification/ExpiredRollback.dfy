/**
 A run in which a rollback makes recovery's "expired without payment" record
 wrong: the job is recorded as never paid, then a fork of a few slots lets a block
 fund the escrow after all.
 */
module ExpiredRollback {
  import opened Prelude
  import opened EscrowRecovery
  import Ledger

  /** The node returns to an earlier tip, no deeper than the rollback bound; the indexer follows. */
  ghost predicate RollsBack(w: World, tip: Slot, w': World) {
    && tip <= w.chain.tip <= tip + Ledger.ROLLBACK_SLOTS
    && w' == w.(chain := Chain(tip, map ref | ref in w.chain.escrows && Visible(w.chain.escrows[ref], tip) != []
                                    :: Visible(w.chain.escrows[ref], tip)),
                sync := if w.sync < tip then w.sync else tip)
  }

  ghost predicate Moves(w: World, w': World) {
    (exists step :: Next(w, step, w')) || exists tip :: RollsBack(w, tip, w')
  }

  ghost predicate ForkingRun(run: seq<World>) {
    && run != [] && Initial(run[0])
    && forall i, j :: 0 <= i && j == i + 1 && j < |run| ==> Moves(run[i], run[j])
  }

  const JOB := Job(1, None, 2, 0, None, None, None, None)
  const SIGNED := JOB.(escrow := Some(5), validUntil := Some(10), supplier := 3)
  const CLAIMED := SIGNED.(owner := 2)
  const SAVED := CLAIMED.(recoverySlot := Some(12))
  const NEVER_PAID := Failed(ExpiredWithoutPayment)
  const AGREED := Datum(Identity, Open, 2, 3, 1_000, None)

  const EMPTY := World(Chain(0, map[]), 0, map[], {}, {}, map[], {}, map[], map[], {})
  /** The request signed the payment, then its process died; the tip and the indexer passed the validity end. */
  const LATE := World(Chain(12, map[]), 12, map[5 := 10], {}, {}, map[0 := SIGNED], {}, map[], map[], {})

  function Recovering(job: Job, op: Op): World {
    LATE.(jobs := map[0 := job], recoveries := map[0 := Recovery(0, 2, op)])
  }

  const RECORDED := Recovering(SAVED, UsageWritten(NEVER_PAID)).(recorded := map[0 := NEVER_PAID])
  const DONE := RECORDED.(jobs := map[0 := SAVED.(done := Some(NEVER_PAID))], recoveries := map[])
  const FORKED := DONE.(chain := Chain(8, map[]), sync := 8)
  const FUNDED := FORKED.(chain := Chain(9, map[5 := [Becomes(9, AGREED)]]))

  lemma GoesOn(run: seq<World>, w: World) returns (run': seq<World>)
    requires ForkingRun(run) && Moves(run[|run| - 1], w)
    ensures ForkingRun(run') && run' == run + [w]
  {
    hide Moves, Initial;
    run' := run + [w];
    forall i, j | 0 <= i && j == i + 1 && j < |run'| ensures Moves(run'[i], run'[j]) {
      if j < |run| {
        assert Moves(run[i], run[j]);
      }
    }
  }

  lemma StepGoesOn(run: seq<World>, step: Step, w: World) returns (run': seq<World>)
    requires ForkingRun(run) && Next(run[|run| - 1], step, w)
    ensures ForkingRun(run') && run' == run + [w]
  {
    hide Next, ForkingRun;
    run' := GoesOn(run, w);
  }

  lemma Begins() returns (run: seq<World>)
    ensures ForkingRun(run) && run == [EMPTY]
  {
    run := [EMPTY];
  }

  /** A job is signed and its process dies before the payment reaches a block. */
  lemma Abandons() returns (run: seq<World>)
    ensures ForkingRun(run) && run != [] && run[|run| - 1] == LATE
  {
    hide ForkingRun;
    run := Begins();
    var begun := EMPTY.(jobs := map[0 := JOB], requests := {(0, 1)});
    assert EMPTY.requests + {(0, 1)} == {(0, 1)};
    run := StepGoesOn(run, OfRequest(0, RequestMove.Begins(1, 2)), begun);
    var signed := begun.(jobs := map[0 := SIGNED], bounds := map[5 := 10]);
    run := StepGoesOn(run, OfRequest(0, Signs(1, 5, Some(10), 3)), signed);
    var dead := signed.(requests := {});
    run := StepGoesOn(run, Crashes(1), dead);
    var mined := dead.(chain := Chain(12, map[]));
    run := StepGoesOn(run, OfChain(Mines(12)), mined);
    run := StepGoesOn(run, OfChain(Syncs(12)), LATE);
  }

  /** Recovery claims the job, finds no payment and sees that the tip is past the validity end. */
  lemma Claims(run: seq<World>) returns (run': seq<World>)
    requires ForkingRun(run) && run[|run| - 1] == LATE
    ensures ForkingRun(run') && run' != [] && run'[|run'| - 1] == Recovering(CLAIMED, PastValidity)
  {
    hide ForkingRun;
    run' := StepGoesOn(run, OfRecovery(0, RecoveryMove.Claims(0, 2)), Recovering(CLAIMED, Claiming));
    run' := StepGoesOn(run', OfRecovery(0, SeesNothing), Recovering(CLAIMED, Absent));
    run' := StepGoesOn(run', OfRecovery(0, SeesPastValidity), Recovering(CLAIMED, PastValidity));
  }

  /** It saves a checkpoint, waits for the indexer, and still finds no payment. */
  lemma Checks(run: seq<World>) returns (run': seq<World>)
    requires run != [] && ForkingRun(run) && run[|run| - 1] == Recovering(CLAIMED, PastValidity)
    ensures ForkingRun(run') && run' != [] && run'[|run'| - 1] == Recovering(SAVED, Decided(NEVER_PAID))
  {
    hide ForkingRun;
    run' := StepGoesOn(run, OfRecovery(0, SavesCheckpoint(false)), Recovering(SAVED, Checkpointed(12)));
    run' := StepGoesOn(run', OfRecovery(0, SeesSynced), Recovering(SAVED, CaughtUp(12)));
    run' := StepGoesOn(run', OfRecovery(0, SeesNothingAgain), Recovering(SAVED, Decided(NEVER_PAID)));
  }

  lemma Records(run: seq<World>) returns (run': seq<World>)
    requires run != [] && ForkingRun(run) && run[|run| - 1] == Recovering(SAVED, Decided(NEVER_PAID))
    ensures ForkingRun(run') && run' != [] && run'[|run'| - 1] == DONE
  {
    hide ForkingRun;
    run' := StepGoesOn(run, OfRecovery(0, WritesUsage), RECORDED);
    assert RECORDED.recoveries - {0} == map[];
    run' := StepGoesOn(run', OfRecovery(0, WritesJob), DONE);
  }

  /** The escrow of a job that is recorded as never paid is funded afterwards. */
  lemma RollbackDefeatsExpiredVerdict() returns (run: seq<World>)
    ensures ForkingRun(run)
    ensures var w := run[|run| - 1];
      && 0 in w.jobs && w.jobs[0].escrow == Some(5) && 5 in w.chain.escrows
      && 0 in w.recorded && w.recorded[0] == Failed(ExpiredWithoutPayment)
  {
    run := Abandons();
    run := Claims(run);
    run := Checks(run);
    run := Records(run);
    assert RollsBack(DONE, 8, FORKED);
    run := GoesOn(run, FORKED);
    assert Next(FORKED, OfChain(Funds(9, 5, AGREED)), FUNDED);
    run := GoesOn(run, FUNDED);
  }
}

/**
 What recovery records about a payment is what happened to it: an escrow that is
 recorded as paid was paid out, one recorded as returned was returned, and one
 recorded as expired is on no block and can be on none later.
 */
module EscrowSafety {
  import opened Prelude
  import opened EscrowRecovery

  /** Slots rise, blocks are not in the future, and nothing follows an end. */
  ghost predicate HistoryOk(events: seq<Event>, tip: Slot) {
    && events != []
    && (forall i :: 0 <= i < |events| ==> events[i].slot <= tip)
    && (forall i, j :: 0 <= i < j < |events| ==> events[i].slot < events[j].slot)
    && (forall i :: 0 <= i < |events| - 1 ==> events[i].Becomes?)
  }

  /** An indexer that is synced to a slot knows exactly the events in blocks up to that slot. */
  lemma {:induction false} VisibleExactly(events: seq<Event>, tip: Slot, sync: Slot)
    requires HistoryOk(events, tip)
    ensures Visible(events, sync) <= events
    ensures forall i :: 0 <= i < |events| ==> (i < |Visible(events, sync)| <==> events[i].slot <= sync)
  {
    var n := |events| - 1;
    if events[n].slot > sync {
      if n == 0 {
        assert events[..0] == [];
      } else {
        VisibleExactly(events[..n], tip, sync);
      }
    }
  }

  /** A funded escrow was not refused, and its first block is before its validity end. */
  ghost predicate EscrowOk(w: World, ref: Ref) {
    ref in w.chain.escrows ==>
      && HistoryOk(w.chain.escrows[ref], w.chain.tip) && ref !in w.rejected
      && (ref in w.bounds ==> w.chain.escrows[ref][0].slot < w.bounds[ref])
  }

  ghost predicate EscrowsOk(w: World) {
    forall ref :: ref in w.chain.escrows ==> EscrowOk(w, ref)
  }

  ghost predicate ExpiredOk(w: World) {
    forall ref :: ref in w.expired ==> PastBound(w, ref, w.chain.tip)
  }

  ghost predicate ChainOk(w: World) {
    w.sync <= w.chain.tip && EscrowsOk(w) && ExpiredOk(w)
  }

  predicate PastBound(w: World, ref: Ref, slot: Slot) {
    ref in w.bounds && w.bounds[ref] <= slot <= w.chain.tip
  }

  ghost predicate JobsOk(w: World) {
    forall id :: id in w.jobs ==>
      var job := w.jobs[id];
      && (job.escrow.Some? && job.validUntil.Some? ==> job.escrow.value in w.bounds && w.bounds[job.escrow.value] == job.validUntil.value)
      && (job.recoverySlot.Some? ==> job.escrow.Some? && PastBound(w, job.escrow.value, job.recoverySlot.value))
      && job.receiptHash != Some(EMPTY)
  }

  /** No request can change what recovery looks at any more. */
  predicate Final(w: World, id: JobId) {
    id in w.jobs && (id, w.jobs[id].owner) !in w.requests
  }

  /** What each outcome says about the chain, now and for ever. */
  predicate OutcomeOk(w: World, id: JobId, outcome: Outcome) {
    && Final(w, id)
    && var escrow := w.jobs[id].escrow;
       match outcome
       case Completed => escrow.Some? && FateIs(w.chain, escrow.value, true)
       case Returned => escrow.Some? && FateIs(w.chain, escrow.value, false)
       case Failed(why) =>
         match why
         case BeforePayment => escrow.None?
         case RejectedBeforePayment => escrow.Some? && escrow.value in w.rejected
         case ExpiredWithoutPayment => escrow.Some? && escrow.value !in w.chain.escrows && PastBound(w, escrow.value, w.chain.tip)
         case NoVerifiedReceipt => w.jobs[id].receiptHash.None?
         case RequestFailed => false
  }

  predicate OpOk(w: World, id: JobId, op: Op) {
    && Final(w, id)
    && var escrow := w.jobs[id].escrow;
       match op
       case PastValidity => escrow.Some? && PastBound(w, escrow.value, w.chain.tip)
       case Checkpointed(slot) => escrow.Some? && PastBound(w, escrow.value, slot)
       case CaughtUp(slot) => escrow.Some? && PastBound(w, escrow.value, slot) && slot <= w.sync
       case Decided(outcome) => OutcomeOk(w, id, outcome)
       case UsageWritten(outcome) => OutcomeOk(w, id, outcome)
       case _ => true
  }

  ghost predicate RecoveriesOk(w: World) {
    forall r :: r in w.recoveries ==> OpOk(w, w.recoveries[r].id, w.recoveries[r].op)
  }

  ghost predicate RecordedOk(w: World) {
    forall id :: id in w.recorded ==> OutcomeOk(w, id, w.recorded[id])
  }

  /** A sent transaction spends the newest output of the job's own escrow, of a state, at a time and with a receipt that allow it. */
  ghost predicate SpendOk(c: Chain, a: Spend) {
    && a.ref in c.escrows && 0 < a.n <= |c.escrows[a.ref]|
    && c.escrows[a.ref][a.n - 1].Becomes? && c.escrows[a.ref][a.n - 1].datum == a.datum
    && a.datum.buyer == a.buyer && a.datum.supplier == a.supplier
    && match a.kind
       case Accepted =>
         && a.datum.state == Submitted && (a.datum.layout == Identity ==> a.verified.Some?)
         && (a.verified.Some? ==> a.datum.receiptHash == a.verified)
       case Reclaimed => a.datum.state != Submitted && a.at > a.datum.deliverBy + 60_000
       case RefundRevoked => a.datum.layout == Identity
       case Released => false
  }

  ghost predicate SignedOk(w: World) {
    forall a :: a in w.signed ==> SpendOk(w.chain, a)
  }

  ghost predicate Inv(w: World) {
    ChainOk(w) && JobsOk(w) && RecoveriesOk(w) && RecordedOk(w) && SignedOk(w)
  }

  // ----- What stays true while the world moves on -----

  ghost predicate EscrowsGrow(c: Chain, c': Chain) {
    c.tip <= c'.tip && forall ref :: ref in c.escrows ==> ref in c'.escrows && c.escrows[ref] <= c'.escrows[ref]
  }

  ghost predicate BoundsStay(w: World, w': World) {
    w.rejected <= w'.rejected && forall ref :: ref in w.bounds ==> ref in w'.bounds && w'.bounds[ref] == w.bounds[ref]
  }

  /** A job's payment is fixed once no request owns it. */
  ghost predicate JobsStay(w: World, w': World) {
    && (forall id :: id in w.jobs ==> id in w'.jobs)
    && (forall id :: Final(w, id) ==>
          Final(w', id) && w'.jobs[id].escrow == w.jobs[id].escrow && w'.jobs[id].receiptHash == w.jobs[id].receiptHash)
  }

  /** No escrow is funded after its validity end. */
  ghost predicate NoLateFunding(w: World, w': World) {
    forall ref :: ref in w'.chain.escrows && ref !in w.chain.escrows ==> !PastBound(w, ref, w.chain.tip)
  }

  /** The chain only grows, bounds and refusals stay, and so does what recovery looks at. */
  ghost predicate Grows(w: World, w': World) {
    w.sync <= w'.sync && EscrowsGrow(w.chain, w'.chain) && BoundsStay(w, w') && JobsStay(w, w') && NoLateFunding(w, w')
  }

  lemma FateStays(w: World, w': World, ref: Ref, paysOut: bool)
    requires ChainOk(w') && Grows(w, w') && FateIs(w.chain, ref, paysOut)
    ensures FateIs(w'.chain, ref, paysOut)
  {
    assert EscrowOk(w', ref);
    var before, after := w.chain.escrows[ref], w'.chain.escrows[ref];
    assert HistoryOk(after, w'.chain.tip);
    assert after[|before| - 1] == before[|before| - 1];
  }

  lemma OutcomeStays(w: World, w': World, id: JobId, outcome: Outcome)
    requires ChainOk(w') && Grows(w, w') && OutcomeOk(w, id, outcome)
    ensures OutcomeOk(w', id, outcome)
  {
    hide ChainOk, FateIs;
    if outcome.Completed? {
      FateStays(w, w', w.jobs[id].escrow.value, true);
    } else if outcome.Returned? {
      FateStays(w, w', w.jobs[id].escrow.value, false);
    }
  }

  lemma OpStays(w: World, w': World, id: JobId, op: Op)
    requires ChainOk(w') && Grows(w, w') && OpOk(w, id, op)
    ensures OpOk(w', id, op)
  {
    hide ChainOk, OutcomeOk;
    if op.Decided? || op.UsageWritten? {
      OutcomeStays(w, w', id, op.outcome);
    }
  }

  lemma SignedStays(w: World, w': World)
    requires SignedOk(w) && Grows(w, w') && w'.signed == w.signed
    ensures SignedOk(w')
  {
    hide Final;
    forall a | a in w'.signed ensures SpendOk(w'.chain, a) {
      assert w.chain.escrows[a.ref] <= w'.chain.escrows[a.ref];
    }
  }

  /** Operations and records are the old ones, or have been checked. */
  lemma RestStays(w: World, w': World)
    requires ChainOk(w') && Grows(w, w') && RecoveriesOk(w) && RecordedOk(w)
    requires forall r :: r in w'.recoveries ==>
      (r in w.recoveries && w'.recoveries[r] == w.recoveries[r]) || OpOk(w', w'.recoveries[r].id, w'.recoveries[r].op)
    requires forall id :: id in w'.recorded ==>
      (id in w.recorded && w'.recorded[id] == w.recorded[id]) || OutcomeOk(w', id, w'.recorded[id])
    ensures RecoveriesOk(w') && RecordedOk(w')
  {
    hide ChainOk, OpOk, OutcomeOk, Grows;
    forall r | r in w'.recoveries ensures OpOk(w', w'.recoveries[r].id, w'.recoveries[r].op) {
      if r in w.recoveries && w'.recoveries[r] == w.recoveries[r] {
        OpStays(w, w', w.recoveries[r].id, w.recoveries[r].op);
      }
    }
    forall id | id in w'.recorded ensures OutcomeOk(w', id, w'.recorded[id]) {
      if id in w.recorded && w'.recorded[id] == w.recorded[id] {
        OutcomeStays(w, w', id, w.recorded[id]);
      }
    }
  }

  // ----- Chain steps -----

  lemma EscrowStaysOk(w: World, m: ChainMove, w': World, ref: Ref)
    requires ChainOk(w) && ChainStep(w, m, w')
    ensures EscrowOk(w', ref)
    ensures ref in w.chain.escrows ==> ref in w'.chain.escrows && w.chain.escrows[ref] <= w'.chain.escrows[ref]
  {
    hide CanFollow, PastBound;
    assert EscrowOk(w, ref);
    if ref in w.chain.escrows {
      LaterTipKeepsHistory(w.chain.escrows[ref], w.chain.tip, w'.chain.tip);
    }
    match m
    case Spends(spent, event) =>
      if spent == ref {
        LastBecomes(w.chain.escrows[ref], event);
        AppendKeepsHistory(w.chain.escrows[ref], w.chain.tip, event);
      }
    case _ =>
  }

  lemma LastBecomes(events: seq<Event>, event: Event)
    requires events != [] && CanFollow(events[|events| - 1], event)
    ensures events[|events| - 1].Becomes?
  {
  }

  lemma ChainStepOk(w: World, m: ChainMove, w': World)
    requires ChainOk(w) && ChainStep(w, m, w')
    ensures ChainOk(w') && Grows(w, w')
  {
    hide CanFollow, EscrowOk;
    forall ref ensures EscrowOk(w', ref)
      && (ref in w.chain.escrows ==> ref in w'.chain.escrows && w.chain.escrows[ref] <= w'.chain.escrows[ref])
    {
      hide ChainOk, ChainStep;
      EscrowStaysOk(w, m, w', ref);
    }
    assert EscrowsGrow(w.chain, w'.chain) && EscrowsOk(w');
    assert ExpiredOk(w') && BoundsStay(w, w') && NoLateFunding(w, w');
  }

  lemma AppendKeepsHistory(events: seq<Event>, tip: Slot, event: Event)
    requires HistoryOk(events, tip) && tip < event.slot && events[|events| - 1].Becomes?
    ensures HistoryOk(events + [event], event.slot)
  {
  }

  lemma LaterTipKeepsHistory(events: seq<Event>, tip: Slot, tip': Slot)
    requires HistoryOk(events, tip) && tip <= tip'
    ensures HistoryOk(events, tip')
  {
  }

  lemma ChainStepKeeps(w: World, m: ChainMove, w': World)
    requires Inv(w) && ChainStep(w, m, w')
    ensures Inv(w') && Grows(w, w')
  {
    hide OpOk, OutcomeOk, SpendOk, HistoryOk, CanFollow, EscrowsOk, ExpiredOk;
    ChainStepOk(w, m, w');
    assert JobsOk(w');
    hide ChainOk, ChainStep, JobsOk, Grows;
    RestStays(w, w');
    SignedStays(w, w');
  }

  // ----- Request steps -----

  lemma RequestStepKeeps(w: World, id: JobId, m: RequestMove, w': World)
    requires Inv(w) && RequestStep(w, id, m, w')
    ensures Inv(w') && Grows(w, w')
  {
    hide OpOk, OutcomeOk, HistoryOk;
    assert ChainOk(w');
    RequestGrows(w, id, m, w');
    hide ChainOk;
    RestStays(w, w');
    SignedStays(w, w');
  }

  lemma RequestGrows(w: World, id: JobId, m: RequestMove, w': World)
    requires RequestStep(w, id, m, w') && ChainOk(w)
    ensures Grows(w, w')
  {
    hide HistoryOk;
  }

  // ----- Recovery steps -----

  lemma {:induction false} VisibleIsPrefix(events: seq<Event>, sync: Slot)
    ensures Visible(events, sync) <= events
  {
    if events != [] && events[|events| - 1].slot > sync {
      VisibleIsPrefix(events[..|events| - 1], sync);
    }
  }

  /** What an indexer knows of an escrow is empty only if its first block is still ahead. */
  lemma {:induction false} VisibleHasFirst(events: seq<Event>, sync: Slot)
    requires events != [] && events[0].slot <= sync
    ensures Visible(events, sync) != []
  {
    if |events| > 1 && events[|events| - 1].slot > sync {
      VisibleHasFirst(events[..|events| - 1], sync);
    }
  }

  /** A terminal that the indexer shows is the escrow's end. */
  lemma SeenEndIsFate(w: World, ref: Ref)
    requires EscrowsOk(w)
    requires var seen := Lineage(w.chain, ref, w.sync); seen != [] && seen[|seen| - 1].Ends?
    ensures var seen := Lineage(w.chain, ref, w.sync); FateIs(w.chain, ref, PaysOut(seen[|seen| - 1].fate))
  {
    var seen := Lineage(w.chain, ref, w.sync);
    var events := w.chain.escrows[ref];
    assert EscrowOk(w, ref);
    VisibleIsPrefix(events, w.sync);
    assert seen[|seen| - 1] == events[|seen| - 1];
  }

  lemma ConfirmedIsFate(w: World, ref: Ref, n: nat)
    requires EscrowsOk(w) && ref in w.chain.escrows && n < |w.chain.escrows[ref]| && w.chain.escrows[ref][n].Ends?
    ensures FateIs(w.chain, ref, PaysOut(w.chain.escrows[ref][n].fate))
  {
    assert EscrowOk(w, ref);
  }

  /** A caught-up indexer that shows nothing proves that nothing was ever funded. */
  lemma CaughtUpProvesAbsence(w: World, ref: Ref, slot: Slot)
    requires EscrowsOk(w) && PastBound(w, ref, slot) && slot <= w.sync && Lineage(w.chain, ref, w.sync) == []
    ensures ref !in w.chain.escrows
  {
    assert EscrowOk(w, ref);
    if ref in w.chain.escrows {
      VisibleHasFirst(w.chain.escrows[ref], w.sync);
    }
  }

  /** A step that moves one recovery on and leaves tables and chain alone. */
  lemma OpMoves(w: World, r: nat, op: Op, w': World)
    requires Inv(w) && r in w.recoveries && OpOk(w, w.recoveries[r].id, op) && w' == WithOp(w, r, op)
    ensures Inv(w') && Grows(w, w')
  {
    hide HistoryOk, OutcomeOk, FateIs;
    SameOpOk(w, w', w.recoveries[r].id, op);
    assert ChainOk(w') by { hide OpOk; }
    assert Grows(w, w') by { hide OpOk; }
    hide ChainOk, Grows, OpOk;
    RestStays(w, w');
    SignedStays(w, w');
  }

  lemma SameOpOk(w: World, w': World, id: JobId, op: Op)
    requires OpOk(w, id, op) && w' == w.(recoveries := w'.recoveries)
    ensures OpOk(w', id, op)
  {
    hide FateIs;
  }

  /** The reads that find no payment. */
  lemma AbsentStepKeeps(w: World, r: nat, m: RecoveryMove, w': World)
    requires Inv(w) && RecoveryStep(w, r, m, w')
    requires m.NoPayment? || m.SeesNothing? || m.SeesRejection? || m.SeesPastValidity? || m.SeesSynced? || m.SeesNothingAgain?
    ensures Inv(w') && Grows(w, w')
  {
    hide EscrowsOk, RecordedOk, SignedOk, Lineage, SeesLive, OwnEscrow, FateIs, WithOp, Grows;
    var id, op := w.recoveries[r].id, w.recoveries[r].op;
    assert OpOk(w, id, op);
    var escrow := w.jobs[id].escrow;
    match m
    case NoPayment => OpMoves(w, r, Decided(Failed(BeforePayment)), w');
    case SeesNothing => OpMoves(w, r, Absent, w');
    case SeesRejection => OpMoves(w, r, Decided(Failed(RejectedBeforePayment)), w');
    case SeesPastValidity => OpMoves(w, r, PastValidity, w');
    case SeesSynced => OpMoves(w, r, CaughtUp(op.checkpoint), w');
    case SeesNothingAgain =>
      CaughtUpProvesAbsence(w, escrow.value, op.checkpoint);
      OpMoves(w, r, Decided(Failed(ExpiredWithoutPayment)), w');
  }

  /** The reads and sends that concern a funded escrow. */
  lemma FundedStepKeeps(w: World, r: nat, m: RecoveryMove, w': World)
    requires Inv(w) && RecoveryStep(w, r, m, w')
    requires m.SeesTerminal? || m.SeesReceiptMissing? || m.SeesConfirmed?
    ensures Inv(w') && Grows(w, w')
  {
    hide EscrowsOk, ExpiredOk, JobsOk, RecordedOk, SignedOk, Lineage, SeesLive, OwnEscrow, FateIs, WithOp, Grows;
    var id, op := w.recoveries[r].id, w.recoveries[r].op;
    assert OpOk(w, id, op);
    var escrow := w.jobs[id].escrow;
    match m
    case SeesTerminal =>
      SeenEndIsFate(w, escrow.value);
      var seen := Lineage(w.chain, escrow.value, w.sync);
      OpMoves(w, r, Decided(if PaysOut(seen[|seen| - 1].fate) then Completed else Returned), w');
    case SeesReceiptMissing => OpMoves(w, r, Decided(Failed(NoVerifiedReceipt)), w');
    case SeesConfirmed =>
      ConfirmedIsFate(w, escrow.value, op.n);
      OpMoves(w, r, Decided(if PaysOut(op.fate) then Completed else Returned), w');
  }

  lemma ClaimKeeps(w: World, r: nat, id: JobId, owner: Owner, w': World)
    requires Inv(w) && RecoveryStep(w, r, Claims(id, owner), w')
    ensures Inv(w') && Grows(w, w')
  {
    hide HistoryOk, OutcomeOk, OpOk;
    assert ChainOk(w') && JobsOk(w') && Grows(w, w');
    hide ChainOk, Grows;
    ClaimedIsFinal(w', id);
    RestStays(w, w');
    SignedStays(w, w');
  }

  lemma ClaimedIsFinal(w: World, id: JobId)
    requires id in w.jobs && (id, w.jobs[id].owner) !in w.requests
    ensures OpOk(w, id, Claiming)
  {
  }

  lemma CheckpointKeeps(w: World, r: nat, stored: bool, w': World)
    requires Inv(w) && RecoveryStep(w, r, SavesCheckpoint(stored), w')
    ensures Inv(w') && Grows(w, w')
  {
    var id := w.recoveries[r].id;
    hide HistoryOk, OutcomeOk, EscrowsOk, ExpiredOk, SignedOk, RecordedOk, EscrowsGrow, BoundsStay, NoLateFunding;
    assert OpOk(w, id, PastValidity);
    if stored {
      hide Grows;
      OpMoves(w, r, Checkpointed(w.jobs[id].recoverySlot.value), w');
    } else {
      assert OpOk(w', id, Checkpointed(w.chain.tip));
      assert JobsOk(w') && JobsStay(w, w');
      hide OpOk, JobsOk, JobsStay, Inv, Grows;
      JobTableKeeps(w, w');
    }
  }

  /** What recovery sends is allowed by the escrow that it sees live at the tip. */
  lemma SendIsOk(w: World, r: nat, m: RecoveryMove, w': World) returns (spend: Spend)
    requires Inv(w) && RecoveryStep(w, r, m, w') && (m.SendsAccept? || m.SendsReclaim? || m.SendsRefund?)
    ensures r in w.recoveries && w' == Sends(w, r, spend) && SpendOk(w.chain, spend)
  {
    hide ChainOk, RecoveriesOk, RecordedOk, SignedOk, Sends;
    var job := w.jobs[w.recoveries[r].id];
    var ref, datum := job.escrow.value, LiveDatum(w, job.escrow.value);
    var n := |w.chain.escrows[ref]|;
    match m
    case SendsAccept => spend := Spend(Accepted, ref, n, datum, job.buyer, job.supplier, job.receiptHash, 0);
    case SendsReclaim(now) => spend := Spend(Reclaimed, ref, n, datum, job.buyer, job.supplier, None, now);
    case SendsRefund => spend := Spend(RefundRevoked, ref, n, datum, job.buyer, job.supplier, None, 0);
  }

  lemma SendKeeps(w: World, r: nat, m: RecoveryMove, w': World)
    requires Inv(w) && RecoveryStep(w, r, m, w') && (m.SendsAccept? || m.SendsReclaim? || m.SendsRefund?)
    ensures Inv(w') && Grows(w, w')
  {
    var spend := SendIsOk(w, r, m, w');
    SentKeeps(w, r, spend, w');
  }

  lemma SentKeeps(w: World, r: nat, spend: Spend, w': World)
    requires Inv(w) && r in w.recoveries && w' == Sends(w, r, spend) && SpendOk(w.chain, spend)
    ensures Inv(w') && Grows(w, w')
  {
    hide HistoryOk, OutcomeOk, FateIs, SpendOk;
    var id := w.recoveries[r].id;
    assert OpOk(w, id, w.recoveries[r].op);
    assert SignedOk(w');
    assert ChainOk(w') && JobsOk(w') && Grows(w, w') && OpOk(w', id, Sent(spend.kind, spend.n));
    hide ChainOk, Grows, OpOk, JobsOk, SignedOk;
    RestStays(w, w');
  }

  /** The tables of jobs change, but no payment that recovery looks at and no bound. */
  lemma JobTableKeeps(w: World, w': World)
    requires Inv(w) && JobsOk(w') && JobsStay(w, w')
    requires w' == w.(jobs := w'.jobs, recoveries := w'.recoveries, requests := w'.requests)
    requires forall r :: r in w'.recoveries ==>
      (r in w.recoveries && w'.recoveries[r] == w.recoveries[r]) || OpOk(w', w'.recoveries[r].id, w'.recoveries[r].op)
    ensures Inv(w') && Grows(w, w')
  {
    hide HistoryOk, OutcomeOk, OpOk, JobsOk, JobsStay;
    assert EscrowsOk(w') && ExpiredOk(w');
    assert EscrowsGrow(w.chain, w'.chain) && BoundsStay(w, w') && NoLateFunding(w, w');
    hide ChainOk, Grows;
    RestStays(w, w');
    SignedStays(w, w');
  }

  lemma UsageKeeps(w: World, r: nat, w': World)
    requires Inv(w) && RecoveryStep(w, r, WritesUsage, w')
    ensures Inv(w') && Grows(w, w')
  {
    hide HistoryOk, FateIs;
    var id, op := w.recoveries[r].id, w.recoveries[r].op;
    assert OpOk(w, id, op);
    assert OutcomeOk(w', id, op.outcome) && OpOk(w', id, UsageWritten(op.outcome));
    hide OutcomeOk, OpOk, JobsOk, SignedOk;
    assert ChainOk(w') && Grows(w, w');
    assert JobsOk(w') && SignedOk(w') by { SameJobsOk(w, w'); }
    hide ChainOk, Grows;
    RestStays(w, w');
  }

  lemma SameJobsOk(w: World, w': World)
    requires JobsOk(w) && SignedOk(w) && w' == w.(recorded := w'.recorded, recoveries := w'.recoveries)
    ensures JobsOk(w') && SignedOk(w')
  {
  }

  lemma DoneKeeps(w: World, r: nat, w': World)
    requires Inv(w) && RecoveryStep(w, r, WritesJob, w')
    ensures Inv(w') && Grows(w, w')
  {
    hide Inv, OpOk, Grows;
    InvHasJobs(w);
    JobTableKeeps(w, w');
  }

  lemma InvHasJobs(w: World)
    requires Inv(w)
    ensures JobsOk(w)
  {
  }

  lemma StopKeeps(w: World, r: nat, w': World)
    requires Inv(w) && RecoveryStep(w, r, Stops, w')
    ensures Inv(w') && Grows(w, w')
  {
    hide Inv, OpOk, Grows;
    InvHasJobs(w);
    JobTableKeeps(w, w');
  }

  lemma RecoveryStepKeeps(w: World, r: nat, m: RecoveryMove, w': World)
    requires Inv(w) && RecoveryStep(w, r, m, w')
    ensures Inv(w') && Grows(w, w')
  {
    hide Inv, RecoveryStep, Grows;
    match m
    case Claims(id, owner) => ClaimKeeps(w, r, id, owner, w');
    case SavesCheckpoint(stored) => CheckpointKeeps(w, r, stored, w');
    case WritesUsage => UsageKeeps(w, r, w');
    case WritesJob => DoneKeeps(w, r, w');
    case Stops => StopKeeps(w, r, w');
    case _ =>
      if m.SendsAccept? || m.SendsReclaim? || m.SendsRefund? {
        SendKeeps(w, r, m, w');
      } else if m.SeesTerminal? || m.SeesReceiptMissing? || m.SeesConfirmed? {
        FundedStepKeeps(w, r, m, w');
      } else {
        AbsentStepKeeps(w, r, m, w');
      }
  }

  lemma CrashKeeps(w: World, owner: Owner, w': World)
    requires Inv(w) && Next(w, Crashes(owner), w')
    ensures Inv(w') && Grows(w, w')
  {
    hide HistoryOk, OutcomeOk, OpOk;
    assert ChainOk(w') && JobsOk(w') && Grows(w, w');
    hide ChainOk, Grows;
    RestStays(w, w');
    SignedStays(w, w');
  }

  lemma NextKeeps(w: World, step: Step, w': World)
    requires Inv(w) && Next(w, step, w')
    ensures Inv(w') && Grows(w, w')
  {
    hide Inv, Grows, ChainStep, RequestStep, RecoveryStep;
    match step
    case OfChain(c) => ChainStepKeeps(w, c, w');
    case OfRequest(id, q) => RequestStepKeeps(w, id, q, w');
    case OfRecovery(r, m) => RecoveryStepKeeps(w, r, m, w');
    case Crashes(owner) => CrashKeeps(w, owner, w');
  }

  // ----- Whole runs -----

  ghost predicate Follows(w: World, w': World) {
    exists step :: Next(w, step, w')
  }

  ghost predicate Run(run: seq<World>) {
    && run != [] && Initial(run[0])
    && forall i, j :: 0 <= i && j == i + 1 && j < |run| ==> Follows(run[i], run[j])
  }

  lemma {:induction false} RunKeeps(run: seq<World>, i: nat)
    requires Run(run) && i < |run|
    ensures Inv(run[i])
  {
    hide Next, Grows;
    if i > 0 {
      hide Inv, Initial;
      RunKeeps(run, i - 1);
      assert Follows(run[i - 1], run[i]);
      var step :| Next(run[i - 1], step, run[i]);
      NextKeeps(run[i - 1], step, run[i]);
    }
  }

  lemma {:induction false} RecordStays(run: seq<World>, i: nat, j: nat, id: JobId, outcome: Outcome)
    requires Run(run) && i <= j < |run| && OutcomeOk(run[i], id, outcome)
    ensures OutcomeOk(run[j], id, outcome) && run[j].jobs[id].escrow == run[i].jobs[id].escrow
    decreases j
  {
    hide Next, Initial, OutcomeOk, Grows, FateIs;
    if i < j {
      RecordStays(run, i, j - 1, id, outcome);
      assert Follows(run[j - 1], run[j]);
      var step :| Next(run[j - 1], step, run[j]);
      RunKeeps(run, j - 1);
      NextKeeps(run[j - 1], step, run[j]);
      OutcomeStays(run[j - 1], run[j], id, outcome);
      EscrowStays(run[j - 1], run[j], id, outcome);
    }
  }

  lemma EscrowStays(w: World, w': World, id: JobId, outcome: Outcome)
    requires Grows(w, w') && OutcomeOk(w, id, outcome)
    ensures id in w'.jobs && id in w.jobs && w'.jobs[id].escrow == w.jobs[id].escrow
  {
    hide FateIs;
  }

  /** The last thing that happened to the escrow is one of these ends. */
  predicate EndedBy(c: Chain, ref: Ref, fates: set<Fate>) {
    && ref in c.escrows && c.escrows[ref] != []
    && var last := c.escrows[ref][|c.escrows[ref]| - 1];
       last.Ends? && last.fate in fates
  }

  /**
   Whatever recovery records agrees with what the chain did and will do: an
   escrow recorded as completed was paid out, one recorded as reclaimed went
   back, and one recorded as never paid is on no block now or later. Crashes
   between a spend and its record, late indexers and other spenders included.
   */
  lemma RecordedOutcomeIsTheFate(run: seq<World>, i: nat, j: nat, id: JobId)
    requires Run(run) && i <= j < |run| && id in run[i].recorded
    ensures id in run[j].jobs
    ensures var escrow, c := run[j].jobs[id].escrow, run[j].chain;
      match run[i].recorded[id]
      case Completed => escrow.Some? && EndedBy(c, escrow.value, {Accepted, Released})
      case Returned => escrow.Some? && EndedBy(c, escrow.value, {Reclaimed, RefundRevoked})
      case Failed(why) =>
        match why
        case BeforePayment => escrow.None?
        case RejectedBeforePayment => escrow.Some? && escrow.value !in c.escrows
        case ExpiredWithoutPayment => escrow.Some? && escrow.value !in c.escrows
        case NoVerifiedReceipt => run[j].jobs[id].receiptHash.None?
        case RequestFailed => false
  {
    hide Run, HistoryOk, SignedOk, RecoveriesOk, JobsOk;
    RunKeeps(run, i);
    RunKeeps(run, j);
    RecordStays(run, i, j, id, run[i].recorded[id]);
    var escrow := run[j].jobs[id].escrow;
    assert escrow.Some? ==> EscrowOk(run[j], escrow.value);
  }

  /**
   Recovery signs an Accept only for a Submitted escrow, of a new escrow only
   with a verified receipt hash, and the escrow that it pays names that hash.
   A legacy escrow may be accepted without a hash, but never against one.
   */
  lemma AcceptNeedsTheVerifiedReceipt(run: seq<World>, i: nat, a: Spend)
    requires Run(run) && i < |run| && a in run[i].signed && a.kind == Accepted
    ensures a.datum.state == Submitted
    ensures a.datum.layout == Identity ==> a.verified.Some?
    ensures a.verified.Some? ==> a.datum.receiptHash == a.verified
  {
    hide Run, ChainOk, RecoveriesOk, RecordedOk, JobsOk;
    RunKeeps(run, i);
    assert SpendOk(run[i].chain, a);
  }

  /**
   Whatever recovery sends, in any run, spends the output that was then the newest
   of an escrow between the buyer and the supplier of its job: a Reclaim only of
   an escrow without a submitted result and a minute after its delivery time, a
   RefundRevoked only of a new escrow, and nothing but these and an Accept.
   */
  lemma SendsOnlyWhatIsDue(run: seq<World>, i: nat, a: Spend)
    requires Run(run) && i < |run| && a in run[i].signed
    ensures a.ref in run[i].chain.escrows && 0 < a.n <= |run[i].chain.escrows[a.ref]|
    ensures run[i].chain.escrows[a.ref][a.n - 1].Becomes? && run[i].chain.escrows[a.ref][a.n - 1].datum == a.datum
    ensures a.datum.buyer == a.buyer && a.datum.supplier == a.supplier
    ensures a.kind == Reclaimed ==> a.datum.state != Submitted && a.at > a.datum.deliverBy + 60_000
    ensures a.kind == RefundRevoked ==> a.datum.layout == Identity
    ensures a.kind != Released
  {
    hide Run, ChainOk, RecoveriesOk, RecordedOk, JobsOk;
    RunKeeps(run, i);
    assert SpendOk(run[i].chain, a);
  }
}

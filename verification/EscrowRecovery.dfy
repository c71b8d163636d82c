/**
 Recovery of interrupted one-shot payments. A job's escrow lives on an
 append-only chain that anyone may extend; recovery sees it through an indexer
 that lags behind and through single output queries at the tip. Requests, any
 number of recoveries and crashes interleave freely.
 */
module EscrowRecovery {
  import opened Prelude

  type Slot = nat
  type Time = int
  type JobId = nat
  type Ref = nat        // the original output of an escrow
  type Owner = nat
  type Party = nat
  type Hash = nat

  /** The empty text: set in a column, but absent in a truth test. No digest is empty. */
  const EMPTY: Hash := 0

  datatype Layout = Legacy | Identity

  datatype EscrowState = Open | Claimed | Submitted

  datatype Datum = Datum(
    layout: Layout, state: EscrowState, buyer: Party, supplier: Party, deliverBy: Time, receiptHash: Option<Hash>)

  /** The four ways an escrow can end; the first two are payments, the others refunds. */
  datatype Fate = Accepted | Released | Reclaimed | RefundRevoked

  datatype Event = Becomes(slot: Slot, datum: Datum) | Ends(slot: Slot, fate: Fate)

  /** The tip, and for every funded escrow what blocks did to it, oldest first. */
  datatype Chain = Chain(tip: Slot, escrows: map<Ref, seq<Event>>)

  predicate PaysOut(fate: Fate) {
    fate == Accepted || fate == Released
  }

  predicate FateIs(c: Chain, ref: Ref, paysOut: bool) {
    ref in c.escrows && c.escrows[ref] != []
    && var last := c.escrows[ref][|c.escrows[ref]| - 1]; last.Ends? && PaysOut(last.fate) == paysOut
  }

  /** What the escrow validator allows next. */
  predicate CanFollow(last: Event, next: Event) {
    && last.Becomes?
    && match next
       case Becomes(_, datum) =>
         && datum.layout == last.datum.layout && datum.buyer == last.datum.buyer && datum.supplier == last.datum.supplier
         && ((last.datum.state == Open && datum.state == Claimed) || (last.datum.state == Claimed && datum.state == Submitted))
       case Ends(_, fate) =>
         match fate
         case Accepted => last.datum.state == Submitted
         case Released => last.datum.state == Submitted
         case Reclaimed => last.datum.state != Submitted
         case RefundRevoked => last.datum.layout == Identity
  }

  /** The part of an escrow's history in blocks up to a slot: what an indexer synced to that slot knows. */
  function Visible(events: seq<Event>, sync: Slot): seq<Event> {
    if events == [] then []
    else if events[|events| - 1].slot <= sync then events
    else Visible(events[..|events| - 1], sync)
  }

  function Lineage(c: Chain, ref: Ref, sync: Slot): seq<Event> {
    if ref in c.escrows then Visible(c.escrows[ref], sync) else []
  }

  datatype Why = BeforePayment | RejectedBeforePayment | ExpiredWithoutPayment | NoVerifiedReceipt | RequestFailed

  datatype Outcome = Completed | Returned | Failed(why: Why)

  datatype Job = Job(
    owner: Owner, done: Option<Outcome>, buyer: Party, supplier: Party, escrow: Option<Ref>, validUntil: Option<Slot>,
    receiptHash: Option<Hash>, recoverySlot: Option<Slot>)

  /** Where one recovery of a job stands between its reads and writes. */
  datatype Op =
    | Claiming
    | Absent
    | PastValidity
    | Checkpointed(checkpoint: Slot)
    | CaughtUp(checkpoint: Slot)
    | Sent(fate: Fate, n: nat)
    | Decided(outcome: Outcome)
    | UsageWritten(outcome: Outcome)

  datatype Recovery = Recovery(id: JobId, owner: Owner, op: Op)

  /**
   A transaction that recovery signed and sent: the output it spends, its datum, the
   parties and the receipt hash of its job, and for a Reclaim the time.
   */
  datatype Spend = Spend(
    kind: Fate, ref: Ref, n: nat, datum: Datum, buyer: Party, supplier: Party, verified: Option<Hash>, at: Time)

  /**
   `bounds` gives the validity end of each funding transaction, `rejected` the
   ones that no block can hold, `expired` those whose bound the tip has passed,
   `requests` the requests in progress, `recorded` what recoveries wrote.
   */
  datatype World = World(
    chain: Chain, sync: Slot, bounds: map<Ref, Slot>, rejected: set<Ref>, expired: set<Ref>,
    jobs: map<JobId, Job>, requests: set<(JobId, Owner)>, recoveries: map<nat, Recovery>,
    recorded: map<JobId, Outcome>, signed: set<Spend>)

  datatype ChainMove =
    | Mines(slot: Slot)
    | Funds(slot: Slot, ref: Ref, datum: Datum)
    | Spends(ref: Ref, event: Event)
    | Syncs(slot: Slot)
    | Rejects(ref: Ref)
    | Expires(ref: Ref)

  datatype RequestMove =
    | Begins(owner: Owner, buyer: Party)
    | Signs(owner: Owner, ref: Ref, validUntil: Option<Slot>, supplier: Party)
    | Verifies(owner: Owner, receiptHash: Hash)
    | Completes(owner: Owner)
    | Fails(owner: Owner)

  datatype RecoveryMove =
    | Claims(id: JobId, owner: Owner)
    | NoPayment
    | SeesNothing
    | SeesRejection
    | SeesPastValidity
    | SavesCheckpoint(stored: bool)
    | SeesSynced
    | SeesNothingAgain
    | SeesTerminal
    | SeesReceiptMissing
    | SendsAccept
    | SendsReclaim(now: Time)
    | SendsRefund
    | SeesConfirmed
    | WritesUsage
    | WritesJob
    | Stops

  datatype Step =
    | OfChain(c: ChainMove)
    | OfRequest(id: JobId, q: RequestMove)
    | OfRecovery(r: nat, m: RecoveryMove)
    | Crashes(owner: Owner)

  // ----- The chain -----

  ghost predicate ChainStep(w: World, m: ChainMove, w': World) {
    var c := w.chain;
    match m
    case Mines(slot) => c.tip < slot && w' == w.(chain := c.(tip := slot))
    case Funds(slot, ref, datum) =>
      && c.tip < slot && ref !in c.escrows && ref !in w.rejected && (ref in w.bounds ==> slot < w.bounds[ref])
      && datum.state == Open
      && w' == w.(chain := Chain(slot, c.escrows[ref := [Becomes(slot, datum)]]))
    case Spends(ref, event) =>
      && c.tip < event.slot && ref in c.escrows && c.escrows[ref] != []
      && CanFollow(c.escrows[ref][|c.escrows[ref]| - 1], event)
      && w' == w.(chain := Chain(event.slot, c.escrows[ref := c.escrows[ref] + [event]]))
    case Syncs(slot) => w.sync <= slot <= c.tip && w' == w.(sync := slot)
    case Rejects(ref) => ref !in c.escrows && w' == w.(rejected := w.rejected + {ref})
    case Expires(ref) => ref in w.bounds && c.tip >= w.bounds[ref] && w' == w.(expired := w.expired + {ref})
  }

  // ----- Requests -----

  predicate Unfinished(w: World, id: JobId, owner: Owner) {
    id in w.jobs && w.jobs[id].owner == owner && w.jobs[id].done.None?
  }

  /** A request updates its own unfinished job only. */
  ghost predicate RequestStep(w: World, id: JobId, m: RequestMove, w': World) {
    match m
    case Begins(owner, buyer) =>
      && id !in w.jobs
      && w' == w.(jobs := w.jobs[id := Job(owner, None, buyer, 0, None, None, None, None)], requests := w.requests + {(id, owner)})
    case Signs(owner, ref, validUntil, supplier) =>
      && (id, owner) in w.requests && Unfinished(w, id, owner) && w.jobs[id].escrow.None?
      && ref !in w.chain.escrows && ref !in w.bounds && (forall j :: j in w.jobs ==> w.jobs[j].escrow != Some(ref))
      && w' == w.(jobs := w.jobs[id := w.jobs[id].(escrow := Some(ref), validUntil := validUntil, supplier := supplier)],
                  bounds := if validUntil.Some? then w.bounds[ref := validUntil.value] else w.bounds)
    case Verifies(owner, receiptHash) =>
      && (id, owner) in w.requests && Unfinished(w, id, owner) && receiptHash != EMPTY
      && w' == w.(jobs := w.jobs[id := w.jobs[id].(receiptHash := Some(receiptHash))])
    case Completes(owner) =>
      && (id, owner) in w.requests
      && w' == w.(jobs := if Unfinished(w, id, owner) then w.jobs[id := w.jobs[id].(done := Some(Completed))] else w.jobs,
                  requests := w.requests - {(id, owner)})
    case Fails(owner) =>
      && (id, owner) in w.requests
      && w' == w.(jobs := if Unfinished(w, id, owner) && w.jobs[id].escrow.None?
                          then w.jobs[id := w.jobs[id].(done := Some(Failed(RequestFailed)))] else w.jobs,
                  requests := w.requests - {(id, owner)})
  }

  // ----- Recovery -----

  /** The code's mismatch test, with its truth test of the stored hash. */
  predicate ReceiptMatches(job: Job, datum: Datum) {
    job.receiptHash.Some? && job.receiptHash.value != EMPTY ==> datum.receiptHash == job.receiptHash
  }

  /** The escrow's newest row in the indexer is unspent at the tip, with this datum. */
  predicate SeesLive(w: World, ref: Ref) {
    var seen := Lineage(w.chain, ref, w.sync);
    seen != [] && seen[|seen| - 1].Becomes? && seen == w.chain.escrows[ref]
  }

  function LiveDatum(w: World, ref: Ref): Datum
    requires SeesLive(w, ref)
  {
    var seen := Lineage(w.chain, ref, w.sync);
    seen[|seen| - 1].datum
  }

  predicate OwnEscrow(job: Job, datum: Datum) {
    datum.buyer == job.buyer && datum.supplier == job.supplier
  }

  const RECLAIM_BUFFER_MS: int := 60_000

  function WithOp(w: World, r: nat, op: Op): World
    requires r in w.recoveries
  {
    w.(recoveries := w.recoveries[r := w.recoveries[r].(op := op)])
  }

  function Sends(w: World, r: nat, spend: Spend): World
    requires r in w.recoveries
  {
    WithOp(w.(signed := w.signed + {spend}), r, Sent(spend.kind, spend.n))
  }

  ghost predicate RecoveryStep(w: World, r: nat, m: RecoveryMove, w': World) {
    if m.Claims? then
      && r !in w.recoveries && m.id in w.jobs && w.jobs[m.id].done.None? && (m.id, m.owner) !in w.requests
      && w' == w.(jobs := w.jobs[m.id := w.jobs[m.id].(owner := m.owner)], recoveries := w.recoveries[r := Recovery(m.id, m.owner, Claiming)])
    else
      && r in w.recoveries && w.recoveries[r].id in w.jobs
      && var id, op, job := w.recoveries[r].id, w.recoveries[r].op, w.jobs[w.recoveries[r].id];
         match m
         case NoPayment => op.Claiming? && job.owner == w.recoveries[r].owner && job.escrow.None? && w' == WithOp(w, r, Decided(Failed(BeforePayment)))
         case SeesNothing => op.Claiming? && job.escrow.Some? && Lineage(w.chain, job.escrow.value, w.sync) == [] && w' == WithOp(w, r, Absent)
         case SeesRejection =>
           op.Absent? && job.escrow.Some? && job.escrow.value in w.rejected && w' == WithOp(w, r, Decided(Failed(RejectedBeforePayment)))
         case SeesPastValidity =>
           && op.Absent? && job.escrow.Some?
           && (job.escrow.value in w.expired || (job.validUntil.Some? && w.chain.tip >= job.validUntil.value))
           && w' == WithOp(w, r, PastValidity)
         case SavesCheckpoint(stored) =>
           && op.PastValidity?
           && if stored then
                job.recoverySlot.Some? && w' == WithOp(w, r, Checkpointed(job.recoverySlot.value))
              else
                && Unfinished(w, id, w.recoveries[r].owner)
                && w' == WithOp(w.(jobs := w.jobs[id := job.(recoverySlot := Some(w.chain.tip))]), r, Checkpointed(w.chain.tip))
         case SeesSynced => op.Checkpointed? && w.sync >= op.checkpoint && w' == WithOp(w, r, CaughtUp(op.checkpoint))
         case SeesNothingAgain =>
           && op.CaughtUp? && job.escrow.Some? && Lineage(w.chain, job.escrow.value, w.sync) == []
           && w' == WithOp(w, r, Decided(Failed(ExpiredWithoutPayment)))
         case SeesTerminal =>
           && op.Claiming? && job.escrow.Some?
           && var seen := Lineage(w.chain, job.escrow.value, w.sync);
              && seen != [] && seen[|seen| - 1].Ends?
              && w' == WithOp(w, r, Decided(if PaysOut(seen[|seen| - 1].fate) then Completed else Returned))
         case SeesReceiptMissing =>
           && op.Claiming? && job.escrow.Some? && SeesLive(w, job.escrow.value)
           && var datum := LiveDatum(w, job.escrow.value);
              && OwnEscrow(job, datum) && datum.state == Submitted && datum.layout == Identity && job.receiptHash.None?
              && w' == WithOp(w, r, Decided(Failed(NoVerifiedReceipt)))
         case SendsAccept =>
           && op.Claiming? && job.escrow.Some? && SeesLive(w, job.escrow.value)
           && var ref, datum := job.escrow.value, LiveDatum(w, job.escrow.value);
              && OwnEscrow(job, datum) && datum.state == Submitted && ReceiptMatches(job, datum)
              && (datum.layout == Identity ==> job.receiptHash.Some?)
              && w' == Sends(w, r, Spend(Accepted, ref, |w.chain.escrows[ref]|, datum, job.buyer, job.supplier, job.receiptHash, 0))
         case SendsReclaim(now) =>
           && op.Claiming? && job.escrow.Some? && SeesLive(w, job.escrow.value)
           && var ref, datum := job.escrow.value, LiveDatum(w, job.escrow.value);
              && OwnEscrow(job, datum) && datum.state != Submitted && now > datum.deliverBy + RECLAIM_BUFFER_MS
              && w' == Sends(w, r, Spend(Reclaimed, ref, |w.chain.escrows[ref]|, datum, job.buyer, job.supplier, None, now))
         case SendsRefund =>
           && op.Claiming? && job.escrow.Some? && SeesLive(w, job.escrow.value)
           && var ref, datum := job.escrow.value, LiveDatum(w, job.escrow.value);
              && OwnEscrow(job, datum) && datum.layout == Identity
              && w' == Sends(w, r, Spend(RefundRevoked, ref, |w.chain.escrows[ref]|, datum, job.buyer, job.supplier, None, 0))
         case SeesConfirmed =>
           && op.Sent? && job.escrow.Some? && job.escrow.value in w.chain.escrows
           && var events := w.chain.escrows[job.escrow.value];
              && op.n < |events| && events[op.n].Ends? && events[op.n].fate == op.fate
              && w' == WithOp(w, r, Decided(if PaysOut(op.fate) then Completed else Returned))
         case WritesUsage =>
           op.Decided? && w' == WithOp(w.(recorded := w.recorded[id := op.outcome]), r, UsageWritten(op.outcome))
         case WritesJob =>
           && op.UsageWritten?
           && w' == w.(jobs := if Unfinished(w, id, w.recoveries[r].owner) then w.jobs[id := job.(done := Some(op.outcome))] else w.jobs,
                       recoveries := w.recoveries - {r})
         case Stops => w' == w.(recoveries := w.recoveries - {r})
  }

  ghost predicate Next(w: World, step: Step, w': World) {
    match step
    case OfChain(c) => ChainStep(w, c, w')
    case OfRequest(id, q) => RequestStep(w, id, q, w')
    case OfRecovery(r, m) => RecoveryStep(w, r, m, w')
    case Crashes(owner) =>
      w' == w.(recoveries := map r | r in w.recoveries && w.recoveries[r].owner != owner :: w.recoveries[r],
               requests := set q | q in w.requests && q.1 != owner)
  }

  ghost predicate Initial(w: World) {
    && w.chain.escrows == map[] && w.sync <= w.chain.tip && w.bounds == map[] && w.rejected == {} && w.expired == {}
    && w.jobs == map[] && w.requests == {} && w.recoveries == map[] && w.recorded == map[] && w.signed == {}
  }
}

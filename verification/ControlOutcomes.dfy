/**
 What each step of the control service leaves in the job it concerns, column by
 column, and in the log; no step touches another job.
 */
module ControlOutcomes {
  import opened Prelude
  import opened ControlStore
  import opened ControlService
  import P = PublisherTables

  /** Job `id` becomes `row` with `added` events more in its log; every other job stays. */
  ghost predicate Leaves(t: Tables, t': Tables, id: JobId, row: Job, added: nat) {
    id in t.jobs && t'.jobs == t.jobs[id := row.(lastSeq := t.jobs[id].lastSeq + added)]
  }

  lemma AttemptLeaves(t: Tables, id: JobId, states: set<State>, attempt: nat, p: Patch, event: Option<EventInput>, now: Time)
    ensures var t' := Attempted(t, id, states, attempt, p, event, now);
      if id in t.jobs && t.jobs[id].attempt == attempt && t.jobs[id].state in states
      then Leaves(t, t', id, Patched(t.jobs[id], p, now), if event.Some? then 1 else 0) else t' == t
  {
    if Guarded(t, id, states, attempt) {
      var t' := Attempted(t, id, states, attempt, p, event, now);
      assert t'.jobs == t.jobs[id := Patched(t.jobs[id], p, now).(lastSeq := t'.jobs[id].lastSeq)];
    }
  }

  lemma InsertLeaves(t: Tables, id: JobId, event: EventInput, at: Time)
    requires id in t.jobs
    ensures Leaves(t, InsertEvent(t, id, event, at), id, t.jobs[id], 1)
  {
    assert InsertEvent(t, id, event, at).jobs == t.jobs[id := t.jobs[id].(lastSeq := t.jobs[id].lastSeq + 1)];
  }

  // ----- Builds -----

  /** A new job is queued as attempt 1 and has nothing else yet. */
  lemma CreateOutcome(c: Control, id: JobId, event: EventInput, at: Time, c': Control)
    requires c.process.Some? && BuildStep(c, id, Creates(event), at, c')
    ensures c'.t.jobs == c.t.jobs[id := Job(c.rows, at, at, Queued, 1, None, None, None, None, None, None, None, None, Some(at), None, 1)]
    ensures c'.rows == c.rows + 1
  {
  }

  /** A requested build is the next attempt, at the end of the queue; everything of the last one is cleared. */
  lemma RequestOutcome(c: Control, id: JobId, event: EventInput, at: Time, c': Control)
    requires c.process.Some? && BuildStep(c, id, Requests(event), at, c')
    ensures
      && id in c.t.jobs && c.t.jobs[id].state in {Submitted, Failed, Interrupted, Cancelled, Rejected}
      && Leaves(c.t, c'.t, id, c.t.jobs[id].(
           updatedAt := at, state := Queued, attempt := c.t.jobs[id].attempt + 1, pause := None, artifact := None, archivePath := None,
           filesDir := None, review := None, error := None, queuedAt := Some(at)), 1)
  {
    hide Attempted, Leaves;
    var job := c.t.jobs[id];
    AttemptLeaves(c.t, id, {job.state}, job.attempt, QueuePatch(job.attempt + 1, at), Some(event), at);
  }

  /** A cancelled job leaves the queue, and its running build, if it is this attempt's, is told to stop unless it was already. */
  lemma CancelOutcome(c: Control, id: JobId, event: EventInput, at: Time, c': Control)
    requires c.process.Some? && BuildStep(c, id, Cancels(event), at, c')
    ensures
      && id in c.t.jobs && c.t.jobs[id].state in {Queued, Building, Verifying}
      && Leaves(c.t, c'.t, id, c.t.jobs[id].(updatedAt := at, state := Cancelled, pause := None, queuedAt := None), 1)
    ensures c'.process.Some? && c'.process.value.active ==
      match c.process.value.active
      case None => None
      case Some(call) =>
        Some(if call.id == id && id in c.t.jobs && call.attempt == c.t.jobs[id].attempt && call.stop == NoStop then call.(stop := CancelStop) else call)
  {
    hide Attempted, Leaves;
    var job := c.t.jobs[id];
    AttemptLeaves(c.t, id, {job.state}, job.attempt, KEEP.(state := Some(Cancelled), pause := Some(None), queuedAt := Some(None)), Some(event), at);
  }

  /** The oldest queued job starts to build, marked with its attempt. */
  lemma PumpOutcome(c: Control, id: JobId, event: EventInput, at: Time, c': Control)
    requires c.process.Some? && BuildStep(c, id, Pumps(event), at, c')
    ensures
      && id in c.t.jobs && c.t.jobs[id].state == Queued
      && Leaves(c.t, c'.t, id, c.t.jobs[id].(
           updatedAt := at, state := Building, queuedAt := None, builderAttempt := Some(c.t.jobs[id].attempt)), 1)
      && c'.process == Some(c.process.value.(active := Some(Call(id, c.t.jobs[id].attempt, NoStop, None))))
      && forall other :: other in c.t.jobs && c.t.jobs[other].state == Queued && other != id ==> Older(c.t.jobs, id, other)
  {
    hide Attempted, Leaves, Older;
    var job := c.t.jobs[id];
    AttemptLeaves(c.t, id, {Queued}, job.attempt,
      KEEP.(state := Some(Building), queuedAt := Some(None), builderAttempt := Some(Some(job.attempt))), Some(event), at);
    assert forall other :: other in c.t.jobs && c.t.jobs[other].state == Queued ==> InQueue(c.t.jobs, other);
  }

  /** A log line of the running attempt is recorded; a first line of verification moves the job on. */
  lemma LogOutcome(c: Control, id: JobId, attempt: nat, verifying: bool, event: EventInput, at: Time, c': Control)
    requires c.process.Some? && BuildStep(c, id, Logs(attempt, verifying, event), at, c') && IsRunning(c.t, id, attempt)
    ensures id in c.t.jobs && Leaves(c.t, c'.t, id,
      if verifying && c.t.jobs[id].state == Building then c.t.jobs[id].(updatedAt := at, state := Verifying) else c.t.jobs[id], 1)
  {
    hide Attempted, InsertEvent, Leaves;
    AttemptLeaves(c.t, id, {Building}, attempt, KEEP.(state := Some(Verifying)), Some(event), at);
    InsertLeaves(c.t, id, event, at);
  }

  /** Missing funds pause the running attempt from their first report on; later reports only refresh what is shown, and the event is logged once. */
  lemma ShortfallOutcome(c: Control, id: JobId, attempt: nat, message: Text, event: EventInput, at: Time, c': Control)
    requires c.process.Some? && BuildStep(c, id, RunsShort(attempt, message, event), at, c') && IsRunning(c.t, id, attempt)
    ensures
      && id in c.t.jobs
      && var job := c.t.jobs[id];
         if job.pause.Some? then Leaves(c.t, c'.t, id, job.(updatedAt := at, pause := Some(Pause(job.pause.value.since, at, message))), 0)
         else Leaves(c.t, c'.t, id, job.(updatedAt := at, pause := Some(Pause(at, at, message))), 1)
  {
    hide Attempted, Leaves;
    var job := c.t.jobs[id];
    AttemptLeaves(c.t, id, {job.state}, attempt, KEEP.(pause := Some(Some(ShortPause(job, message, at)))),
      if job.pause.Some? then None else Some(event), at);
  }

  lemma FundsOutcome(c: Control, id: JobId, attempt: nat, event: EventInput, at: Time, c': Control)
    requires c.process.Some? && BuildStep(c, id, FundsBack(attempt, event), at, c') && IsRunning(c.t, id, attempt)
    ensures id in c.t.jobs && Leaves(c.t, c'.t, id, c.t.jobs[id].(updatedAt := at, pause := None), 1)
  {
    hide Attempted, Leaves;
    AttemptLeaves(c.t, id, {c.t.jobs[id].state}, attempt, KEEP.(pause := Some(None)), Some(event), at);
  }

  /** A build that succeeds while its attempt runs waits for review with exactly its verified output. */
  lemma SuccessOutcome(c: Control, id: JobId, output: Output, event: EventInput, at: Time, c': Control)
    requires c.process.Some? && BuildStep(c, id, Succeeds(output, event), at, c')
    ensures c.process.value.active.Some? && c.process.value.active.value.id == id
    ensures var attempt := c.process.value.active.value.attempt;
      if id in c.t.jobs && c.t.jobs[id].attempt == attempt && c.t.jobs[id].state in {Building, Verifying} then
        Leaves(c.t, c'.t, id, c.t.jobs[id].(
          updatedAt := at, state := AwaitingReview, pause := None, artifact := Some(output.artifact),
          archivePath := Some(output.archivePath), filesDir := Some(output.filesDir), error := None), 1)
      else c'.t == c.t
  {
    hide Attempted, Leaves;
    AttemptLeaves(c.t, id, RUNNING, c.process.value.active.value.attempt, OutputPatch(output), Some(event), at);
  }

  /**
   A build that fails while its attempt runs is interrupted if the service is
   stopping, failed otherwise, with the reason; a cancelled one keeps its state. A
   cleanup that is pending is logged and holds back further builds.
   */
  lemma FailureOutcome(c: Control, id: JobId, pending: bool, reason: Text, event: EventInput, at: Time, c': Control)
    requires c.process.Some? && BuildStep(c, id, Fails(pending, reason, event), at, c')
    ensures c.process.value.active.Some? && id in c.t.jobs && c'.process.Some?
    ensures c'.process.value.halted == (c.process.value.halted || pending)
    ensures var call, job, noted := c.process.value.active.value, c.t.jobs[id], if pending then 1 else 0;
      if call.stop != CancelStop && job.attempt == call.attempt && job.state in {Building, Verifying} then
        Leaves(c.t, c'.t, id, job.(
          updatedAt := at, state := if call.stop == ShutdownStop then Interrupted else Failed, pause := None, error := Some(reason)), noted + 1)
      else if pending then Leaves(c.t, c'.t, id, job, 1)
      else c'.t == c.t
  {
    hide Attempted, InsertEvent;
    var call := c.process.value.active.value;
    var noted := if pending then InsertEvent(c.t, id, event, at) else c.t;
    InsertLeaves(c.t, id, event, at);
    InsertedRow(c.t, id, event, at);
    var patch := KEEP.(state := Some(EndState(call.stop)), pause := Some(None), error := Some(Some(reason)));
    AttemptLeaves(noted, id, RUNNING, call.attempt, patch, Some(event), at);
    if pending && noted.jobs[id].attempt == call.attempt && noted.jobs[id].state in RUNNING {
      LeavesTwice(c.t, noted, Attempted(noted, id, RUNNING, call.attempt, patch, Some(event), at), id, Patched(noted.jobs[id], patch, at));
    }
  }

  lemma InsertedRow(t: Tables, id: JobId, event: EventInput, at: Time)
    requires id in t.jobs
    ensures InsertEvent(t, id, event, at).jobs.Keys == t.jobs.Keys
    ensures InsertEvent(t, id, event, at).jobs[id] == t.jobs[id].(lastSeq := t.jobs[id].lastSeq + 1)
  {
  }

  lemma LeavesTwice(a: Tables, b: Tables, c: Tables, id: JobId, row: Job)
    requires id in a.jobs && Leaves(a, b, id, a.jobs[id], 1) && Leaves(b, c, id, row, 1)
    ensures Leaves(a, c, id, row, 2)
  {
  }

  /**
   A rebuild can be requested exactly for a job that is neither queued, building nor
   under review, and that no publication was prepared for; a cancellation exactly for
   a queued or running one. Both are refused while the service is closing.
   */
  lemma BuildRequestsExactly(c: Control, id: JobId, event: EventInput, at: Time)
    requires c.process.Some?
    ensures (exists c' :: BuildStep(c, id, Requests(event), at, c')) <==>
      && !c.process.value.closed && id in c.t.jobs && c.t.jobs[id].publication.None? && c.t.jobs[id].terms.None?
      && c.t.jobs[id].state in {Submitted, Failed, Interrupted, Cancelled, Rejected}
    ensures (exists c' :: BuildStep(c, id, Cancels(event), at, c')) <==>
      !c.process.value.closed && id in c.t.jobs && c.t.jobs[id].state in {Queued, Building, Verifying}
  {
    hide Attempted;
    if id in c.t.jobs {
      var p, job := c.process.value, c.t.jobs[id];
      var requested := c.(t := Attempted(c.t, id, {job.state}, job.attempt, QueuePatch(job.attempt + 1, at), Some(event), at));
      assert !p.closed && job.publication.None? && job.terms.None? && job.state in {Submitted, Failed, Interrupted, Cancelled, Rejected}
        ==> BuildStep(c, id, Requests(event), at, requested);
      var patch := KEEP.(state := Some(Cancelled), pause := Some(None), queuedAt := Some(None));
      var cancelled := c.(t := Attempted(c.t, id, {job.state}, job.attempt, patch, Some(event), at),
        process := Some(if p.active.Some? && p.active.value.id == id && p.active.value.attempt == job.attempt
                        then p.(active := Some(Stopped(p.active.value, CancelStop))) else p));
      assert !p.closed && job.state in {Queued, Building, Verifying} ==> BuildStep(c, id, Cancels(event), at, cancelled);
    }
  }

  // ----- Review, preparation and publication -----

  /** The decision is stored with the digest that was shown, for the attempt that was under review, and only while it is. */
  lemma ReviewOutcome(c: Control, id: JobId, notes: Text, event: EventInput, at: Time, c': Control)
    requires c.process.Some? && PublicationStep(c, id, ReviewEnds(notes, event), at, c')
    ensures
      && id in c.process.value.ops && c.process.value.ops[id].Reviewing?
      && var op := c.process.value.ops[id];
         if id in c.t.jobs && c.t.jobs[id].attempt == op.attempt && c.t.jobs[id].state == AwaitingReview then
           Leaves(c.t, c'.t, id, c.t.jobs[id].(
             updatedAt := at, state := if op.approve then Approved else Rejected, review := Some(Review(op.sha256, op.approve, notes, at))), 1)
         else c'.t == c.t
  {
    hide Attempted, Leaves;
    var op := c.process.value.ops[id];
    AttemptLeaves(c.t, id, {AwaitingReview}, op.attempt,
      KEEP.(state := Some(if op.approve then Approved else Rejected), review := Some(Some(Review(op.sha256, op.approve, notes, at)))), Some(event), at);
  }

  /** A preparation freezes the terms in the job before the request that names them, and the approved artifact, is sent. */
  lemma PrepareOutcome(c: Control, id: JobId, event: EventInput, at: Time, c': Control)
    requires c.process.Some? && PublicationStep(c, id, PrepareSends(event), at, c')
    ensures
      && id in c.process.value.ops && c.process.value.ops[id].Freezing? && id in c.t.jobs && c.t.jobs[id].artifact.Some?
      && var op, job := c.process.value.ops[id], c.t.jobs[id];
         && job.state == Approved && job.attempt == op.attempt
         && Leaves(c.t, c'.t, id, job.(updatedAt := at, terms := Some(op.terms)), 1)
         && c'.sent == c.sent + {PrepareRequest(id, op.terms, job.artifact.value)}
  {
    hide Leaves;
    var op := c.process.value.ops[id];
    TransitionIsAttempt(c.t, id, {Approved}, op.attempt, KEEP.(terms := Some(Some(op.terms))), Some(event), at);
    AttemptLeaves(c.t, id, {Approved}, op.attempt, KEEP.(terms := Some(Some(op.terms))), Some(event), at);
  }

  lemma TransitionIsAttempt(t: Tables, id: JobId, states: set<State>, attempt: nat, p: Patch, event: Option<EventInput>, now: Time)
    requires Transition(t, id, states, attempt, p, event, now).Some?
    ensures Attempted(t, id, states, attempt, p, event, now) == Transition(t, id, states, attempt, p, event, now).value
    ensures Guarded(t, id, states, attempt)
  {
  }

  /** A publish is stored as under way, with the error of an earlier one cleared, before its request is sent. */
  lemma PublishOutcome(c: Control, id: JobId, event: EventInput, at: Time, c': Control)
    requires c.process.Some? && PublicationStep(c, id, PublishSends(event), at, c')
    ensures
      && id in c.process.value.ops && c.process.value.ops[id].CheckingPublish? && id in c.t.jobs
      && var op, job := c.process.value.ops[id], c.t.jobs[id];
         && job.state == Approved && job.attempt == op.attempt
         && Leaves(c.t, c'.t, id, job.(
              updatedAt := at, publication := Some(PublicationView(P.Publishing, op.view.terms, op.view.tx, None)), error := None), 1)
         && c'.sent == c.sent + {PublishRequest(id, op.sha256, op.maxDebit)}
  {
    hide Leaves;
    var op := c.process.value.ops[id];
    var marking := KEEP.(publication := Some(Some(op.view.(state := P.Publishing, error := None))), error := Some(None));
    TransitionIsAttempt(c.t, id, {Approved}, op.attempt, marking, Some(event), at);
    AttemptLeaves(c.t, id, {Approved}, op.attempt, marking, Some(event), at);
  }

  /** A reply is stored for the approved attempt that asked, and only if it names the terms that were sent. */
  lemma ReplyOutcome(c: Control, id: JobId, view: PublicationView, error: Option<Text>, event: EventInput, at: Time, c': Control)
    requires c.process.Some? && PublicationStep(c, id, Replies(view, error, event), at, c')
    ensures
      && id in c.process.value.ops && view.state != P.Preparing
      && var op := c.process.value.ops[id];
         && (op.AwaitingPrepare? || op.AwaitingPublish? || op.Refreshing?)
         && view.terms == (if op.AwaitingPublish? then op.view.terms else op.terms)
         && if id in c.t.jobs && c.t.jobs[id].attempt == op.attempt && c.t.jobs[id].state == Approved then
              Leaves(c.t, c'.t, id, c.t.jobs[id].(updatedAt := at, publication := Some(view), error := error), 1)
            else c'.t == c.t
  {
    hide Attempted, Leaves;
    var op := c.process.value.ops[id];
    AttemptLeaves(c.t, id, {Approved}, op.attempt, KEEP.(publication := Some(Some(view)), error := Some(error)), Some(event), at);
  }

  /** A reply ends the wait of its job exactly when it is no preparation under way and names the terms that were sent. */
  lemma RepliesExactly(c: Control, id: JobId, view: PublicationView, error: Option<Text>, event: EventInput, at: Time)
    requires c.process.Some?
    ensures (exists c' :: PublicationStep(c, id, Replies(view, error, event), at, c')) <==>
      && id in c.process.value.ops && view.state != P.Preparing
      && match c.process.value.ops[id]
         case AwaitingPrepare(_, terms) => view.terms == terms
         case AwaitingPublish(_, sent) => view.terms == sent.terms
         case Refreshing(_, terms) => view.terms == terms
         case _ => false
  {
    hide Attempted;
    if id in c.process.value.ops && ReplyTerms(c.process.value.ops[id]) == Some(view.terms) && view.state != P.Preparing {
      var patch := KEEP.(publication := Some(Some(view)), error := Some(error));
      var stored := Attempted(c.t, id, {Approved}, c.process.value.ops[id].attempt, patch, Some(event), at);
      assert PublicationStep(c, id, Replies(view, error, event), at, WithoutOp(c.(t := stored), id));
    }
  }

  /** A preparation that the publisher refused leaves its reason and nothing else. */
  lemma RefusalOutcome(c: Control, id: JobId, reason: Text, event: EventInput, at: Time, c': Control)
    requires c.process.Some? && PublicationStep(c, id, PrepareFails(reason, event), at, c')
    ensures
      && id in c.process.value.ops
      && var op := c.process.value.ops[id];
         if id in c.t.jobs && c.t.jobs[id].attempt == op.attempt && c.t.jobs[id].state == Approved
         then Leaves(c.t, c'.t, id, c.t.jobs[id].(updatedAt := at, error := Some(reason)), 1) else c'.t == c.t
  {
    hide Attempted, Leaves;
    AttemptLeaves(c.t, id, {Approved}, c.process.value.ops[id].attempt, KEEP.(error := Some(Some(reason))), Some(event), at);
  }

  /**
   Only what was reviewed is prepared and published, while nothing else is under way
   for the job: a preparation begins exactly for the approved digest while nothing
   was prepared, or what was prepared failed without signing; a publish exactly for
   the approved digest of a record that is prepared or failed.
   */
  lemma PublicationBeginsExactly(c: Control, id: JobId, terms: P.Terms, sha256: nat, maxDebit: nat, at: Time)
    requires c.process.Some?
    ensures (exists c' :: PublicationStep(c, id, PrepareBegins(terms), at, c')) <==>
      && !c.process.value.closed && id !in c.process.value.ops && id in c.t.jobs && c.t.jobs[id].state == Approved
      && c.t.jobs[id].artifact.Some? && c.t.jobs[id].review.Some?
      && var job := c.t.jobs[id];
         && job.review.value.artifactSha256 == job.artifact.value.sha256 == terms.artifactSha256
         && (job.publication.None? || (job.publication.value.state == P.Failed && job.publication.value.tx.None?))
    ensures (exists c' :: PublicationStep(c, id, PublicationMove.PublishBegins(sha256, maxDebit), at, c')) <==>
      && !c.process.value.closed && id !in c.process.value.ops && id in c.t.jobs && c.t.jobs[id].state == Approved
      && c.t.jobs[id].artifact.Some? && c.t.jobs[id].review.Some? && c.t.jobs[id].publication.Some?
      && var job := c.t.jobs[id];
         && job.review.value.artifactSha256 == job.artifact.value.sha256 == sha256 == job.publication.value.terms.artifactSha256
         && (job.publication.value.state == P.Prepared || job.publication.value.state == P.Failed)
  {
    if Idle(c.process.value, id) && IsReviewed(c.t, id, terms.artifactSha256) && Preparable(c.t.jobs[id]) {
      assert PublicationStep(c, id, PrepareBegins(terms), at, WithOp(c, id, Freezing(c.t.jobs[id].attempt, terms)));
    }
    if Idle(c.process.value, id) && IsReviewed(c.t, id, sha256) && c.t.jobs[id].publication.Some? {
      var view := c.t.jobs[id].publication.value;
      var begun := WithOp(c, id, CheckingPublish(c.t.jobs[id].attempt, view, sha256, maxDebit));
      assert view.terms.artifactSha256 == sha256 && (view.state == P.Prepared || view.state == P.Failed) ==>
        PublicationStep(c, id, PublicationMove.PublishBegins(sha256, maxDebit), at, begun);
    }
  }

  // ----- Restart -----

  /** A restart interrupts every running build and leaves a publish in flight waiting for its outcome; all else stays. */
  lemma RestartOutcome(c: Control, at: Time, c': Control, id: JobId)
    requires ProcessStep(c, ProcessMove.Boots, at, c') && id in c.t.jobs
    ensures id in c'.t.jobs
    ensures var job := c.t.jobs[id];
      c'.t.jobs[id].(lastSeq := job.lastSeq) ==
        if job.state == Building || job.state == Verifying then job.(updatedAt := at, state := Interrupted, pause := None, error := Some(0))
        else if job.state == Approved && job.publication.Some? && job.publication.value.state == P.Publishing then
          job.(updatedAt := at, publication := Some(PublicationView(P.ConfirmationPending, job.publication.value.terms, job.publication.value.tx, Some(0))))
        else job
  {
  }
}

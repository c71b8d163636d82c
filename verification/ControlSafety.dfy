/**
 What every run of the control service keeps, over crashes, restarts, lost
 races and late builder reports: one builder marker at most, each attempt built
 at most once, and an approval that freezes what is published.
 */
module ControlSafety {
  import opened Prelude
  import opened ControlStore
  import opened ControlService
  import P = PublisherTables

  // ----- One job -----

  const REVIEWABLE: set<State> := {AwaitingReview, Approved, Rejected}

  predicate ForArtifact(job: Job, sha256: nat) {
    job.artifact.Some? && job.artifact.value.sha256 == sha256
  }

  /** A pause only while building, an artifact only from review on, and publication data only for the approved artifact. */
  predicate JobOk(job: Job) {
    && (job.pause.Some? ==> job.state in RUNNING)
    && (job.artifact.Some? <==> job.state in REVIEWABLE)
    && (job.review.Some? ==> job.state in {Approved, Rejected} && ForArtifact(job, job.review.value.artifactSha256))
    && (job.state == Approved ==> job.review.Some? && job.review.value.attested)
    && (job.terms.Some? ==> job.state == Approved && ForArtifact(job, job.terms.value.artifactSha256))
    && (job.publication.Some? ==> job.state == Approved && ForArtifact(job, job.publication.value.terms.artifactSha256))
  }

  predicate Waiting(job: Job) {
    job.state == Submitted || job.state == Queued
  }

  /** The build of the current attempt is over, however it ended. */
  predicate Finished(job: Job) {
    !Waiting(job) && job.state !in RUNNING
  }

  /** How a job may change: attempts grow, one attempt waits, runs and is reviewed once, approval is final. */
  predicate Evolves(a: Job, b: Job) {
    && a.attempt <= b.attempt
    && (a.attempt == b.attempt && !Waiting(a) ==> !Waiting(b))
    && (a.attempt == b.attempt && Finished(a) ==> Finished(b))
    && (a.attempt == b.attempt && a.state in REVIEWABLE ==> b.state in REVIEWABLE && b.artifact == a.artifact)
    && (a.state == Approved ==> b.state == Approved && b.attempt == a.attempt && b.artifact == a.artifact && b.review == a.review)
  }

  ghost predicate JobsOk(t: Tables) {
    forall id :: id in t.jobs ==> JobOk(t.jobs[id])
  }

  ghost predicate JobsEvolve(t: Tables, t': Tables) {
    forall id :: id in t.jobs ==> id in t'.jobs && Evolves(t.jobs[id], t'.jobs[id])
  }

  predicate Marked(t: Tables, id: JobId, attempt: nat) {
    id in t.jobs && t.jobs[id].builderAttempt == Some(attempt)
  }

  /** Only job `id` changes, and it becomes `job` apart from the event counter. */
  ghost predicate Becomes(t: Tables, t': Tables, id: JobId, job: Job) {
    && t'.jobs.Keys == t.jobs.Keys + {id}
    && (forall other :: other in t.jobs && other != id ==> t'.jobs[other] == t.jobs[other])
    && SameRow(job, t'.jobs[id])
  }

  lemma AttemptedBecomes(t: Tables, id: JobId, states: set<State>, attempt: nat, p: Patch, event: Option<EventInput>, now: Time)
    ensures var t' := Attempted(t, id, states, attempt, p, event, now);
      if Guarded(t, id, states, attempt) then Becomes(t, t', id, Patched(t.jobs[id], p, now)) else t' == t
  {
  }

  lemma InsertBecomes(t: Tables, id: JobId, event: EventInput, now: Time)
    requires id in t.jobs
    ensures Becomes(t, InsertEvent(t, id, event, now), id, t.jobs[id])
  {
  }

  lemma BecomesKeeps(t: Tables, t': Tables, id: JobId, job: Job)
    requires JobsOk(t) && Becomes(t, t', id, job) && JobOk(job)
    requires id in t.jobs ==> Evolves(t.jobs[id], job)
    ensures JobsOk(t') && JobsEvolve(t, t')
  {
  }

  lemma SameKeeps(t: Tables)
    ensures JobsEvolve(t, t)
  {
  }

  lemma EvolveTransitive(a: Tables, b: Tables, c: Tables)
    requires JobsEvolve(a, b) && JobsEvolve(b, c)
    ensures JobsEvolve(a, c)
  {
  }

  /** A guarded transition with an admissible patch. */
  lemma AttemptedKeeps(t: Tables, id: JobId, states: set<State>, attempt: nat, p: Patch, event: Option<EventInput>, now: Time)
    requires JobsOk(t)
    requires Guarded(t, id, states, attempt) ==> JobOk(Patched(t.jobs[id], p, now)) && Evolves(t.jobs[id], Patched(t.jobs[id], p, now))
    ensures var t' := Attempted(t, id, states, attempt, p, event, now);
      JobsOk(t') && JobsEvolve(t, t') && (p.builderAttempt.None? ==> forall i: JobId, a: nat :: Marked(t', i, a) <==> Marked(t, i, a))
  {
    hide JobOk, Evolves;
    AttemptedBecomes(t, id, states, attempt, p, event, now);
    SameKeeps(t);
    if Guarded(t, id, states, attempt) {
      BecomesKeeps(t, Attempted(t, id, states, attempt, p, event, now), id, Patched(t.jobs[id], p, now));
    }
  }

  // ----- The invariant -----

  predicate Distinct(begun: seq<(JobId, nat)>) {
    forall i, j :: 0 <= i < j < |begun| ==> begun[i] != begun[j]
  }

  /** A begun attempt exists and waits no more. */
  ghost predicate BegunOk(c: Control) {
    && Distinct(c.begun)
    && (forall b :: b in c.settled ==> b in c.begun)
    && forall b :: b in c.begun ==>
      && b.0 in c.t.jobs && b.1 <= c.t.jobs[b.0].attempt
      && (b.1 == c.t.jobs[b.0].attempt ==> !Waiting(c.t.jobs[b.0]))
  }

  /** The markers in the table are exactly the builder calls begun and not settled. */
  ghost predicate MarkersAreOpen(c: Control) {
    forall id: JobId, a: nat :: Marked(c.t, id, a) <==> (id, a) in c.begun && (id, a) !in c.settled
  }

  ghost predicate OneMarker(t: Tables) {
    forall i: JobId, j: JobId, a: nat, b: nat :: Marked(t, i, a) && Marked(t, j, b) ==> i == j
  }

  ghost predicate NoMarker(t: Tables) {
    forall id: JobId, a: nat :: !Marked(t, id, a)
  }

  ghost predicate ProcessOk(c: Control) {
    c.process.Some? ==>
      var p := c.process.value;
      && (p.started ==> p.tried) && (p.active.Some? ==> p.started)
      && (p.active.Some? ==> Marked(c.t, p.active.value.id, p.active.value.attempt))
      && (p.active.Some? && p.active.value.recorded == Some(true) ==> p.halted)
      && (p.started && p.active.None? && !p.halted ==> NoMarker(c.t))
      && (p.handing.Some? ==> p.tried && !p.started && p.handing.value == Unsettled(c.t.jobs))
  }

  ghost predicate BuildsOk(c: Control) {
    BegunOk(c) && MarkersAreOpen(c) && OneMarker(c.t) && ProcessOk(c)
  }

  /** A waiting publication step concerns the approved artifact, a waiting review the one it looked at. */
  predicate OpOk(t: Tables, id: JobId, op: Op) {
    && id in t.jobs && op.attempt <= t.jobs[id].attempt
    && match op
       case Reviewing(attempt, _, sha256) => attempt == t.jobs[id].attempt ==> t.jobs[id].state in REVIEWABLE && ForArtifact(t.jobs[id], sha256)
       case Freezing(_, terms) => ForApproved(t, id, op.attempt, terms.artifactSha256)
       case AwaitingPrepare(_, terms) => ForApproved(t, id, op.attempt, terms.artifactSha256)
       case CheckingPublish(_, view, sha256, _) => ForApproved(t, id, op.attempt, view.terms.artifactSha256) && sha256 == view.terms.artifactSha256
       case AwaitingPublish(_, view) => ForApproved(t, id, op.attempt, view.terms.artifactSha256)
       case Refreshing(_, terms) => ForApproved(t, id, op.attempt, terms.artifactSha256)
  }

  predicate ForApproved(t: Tables, id: JobId, attempt: nat, sha256: nat) {
    id in t.jobs && t.jobs[id].state == Approved && t.jobs[id].attempt == attempt && ForArtifact(t.jobs[id], sha256)
  }

  ghost predicate OpsOk(c: Control) {
    c.process.Some? ==> forall id :: id in c.process.value.ops ==> OpOk(c.t, id, c.process.value.ops[id])
  }

  /** A request to the publisher names the approved artifact of its job. */
  predicate RequestOk(t: Tables, r: Request) {
    && r.id in t.jobs && t.jobs[r.id].state == Approved && t.jobs[r.id].artifact.Some?
    && match r
       case PrepareRequest(id, terms, artifact) => t.jobs[id].artifact.value == artifact && terms.artifactSha256 == artifact.sha256
       case PublishRequest(id, sha256, _) => t.jobs[id].artifact.value.sha256 == sha256
  }

  ghost predicate SentOk(c: Control) {
    forall r :: r in c.sent ==> RequestOk(c.t, r)
  }

  ghost predicate Inv(c: Control) {
    JobsOk(c.t) && BuildsOk(c) && OpsOk(c) && SentOk(c)
  }

  // ----- What follows from jobs evolving -----

  lemma OpStaysOk(t: Tables, t': Tables, id: JobId, op: Op)
    requires OpOk(t, id, op) && JobsEvolve(t, t')
    ensures OpOk(t', id, op)
  {
    assert Evolves(t.jobs[id], t'.jobs[id]);
  }

  lemma RequestStaysOk(t: Tables, t': Tables, r: Request)
    requires RequestOk(t, r) && JobsEvolve(t, t')
    ensures RequestOk(t', r)
  {
    assert Evolves(t.jobs[r.id], t'.jobs[r.id]);
  }

  lemma BegunStaysOk(c: Control, c': Control)
    requires BegunOk(c) && JobsEvolve(c.t, c'.t) && c'.begun == c.begun && forall b :: b in c'.settled ==> b in c.begun
    ensures BegunOk(c')
  {
    forall b | b in c'.begun
      ensures b.0 in c'.t.jobs && b.1 <= c'.t.jobs[b.0].attempt && (b.1 == c'.t.jobs[b.0].attempt ==> !Waiting(c'.t.jobs[b.0]))
    {
      assert Evolves(c.t.jobs[b.0], c'.t.jobs[b.0]);
    }
  }

  /** Jobs evolve, the operations and the sent requests are the old ones or checked anew. */
  lemma RestKeeps(c: Control, c': Control)
    requires OpsOk(c) && SentOk(c) && JobsEvolve(c.t, c'.t)
    requires c'.process.Some? ==> forall id :: id in c'.process.value.ops ==>
      || (c.process.Some? && id in c.process.value.ops && c'.process.value.ops[id] == c.process.value.ops[id])
      || OpOk(c'.t, id, c'.process.value.ops[id])
    requires forall r :: r in c'.sent ==> r in c.sent || RequestOk(c'.t, r)
    ensures OpsOk(c') && SentOk(c')
  {
    hide JobsEvolve, OpOk, RequestOk;
    if c'.process.Some? {
      forall id | id in c'.process.value.ops ensures OpOk(c'.t, id, c'.process.value.ops[id]) {
        if c.process.Some? && id in c.process.value.ops && c'.process.value.ops[id] == c.process.value.ops[id] {
          OpStaysOk(c.t, c'.t, id, c.process.value.ops[id]);
        }
      }
    }
    forall r | r in c'.sent ensures RequestOk(c'.t, r) {
      if r in c.sent { RequestStaysOk(c.t, c'.t, r); }
    }
  }

  /** A step that touches no marker and keeps the process state that the markers depend on. */
  lemma SameMarkersKeep(c: Control, c': Control)
    requires BuildsOk(c) && JobsEvolve(c.t, c'.t)
    requires c'.begun == c.begun && c'.settled == c.settled
    requires forall id: JobId, a: nat :: Marked(c'.t, id, a) <==> Marked(c.t, id, a)
    requires c'.process.Some? && c.process.Some?
    requires var p, p' := c.process.value, c'.process.value;
      && p'.started == p.started && p'.tried == p.tried && p'.handing == p.handing && (p.halted ==> p'.halted)
      && (p'.active.Some? <==> p.active.Some?)
      && (p'.active.Some? ==> p'.active.value.id == p.active.value.id && p'.active.value.attempt == p.active.value.attempt)
      && (p'.active.Some? && p'.active.value.recorded == Some(true) ==> p'.halted)
    ensures BuildsOk(c')
  {
    hide JobsEvolve, Marked, Distinct;
    BegunStaysOk(c, c');
    SameUnsettled(c.t, c'.t);
  }

  lemma SameUnsettled(t: Tables, t': Tables)
    requires forall id: JobId, a: nat :: Marked(t', id, a) <==> Marked(t, id, a)
    ensures Unsettled(t'.jobs) == Unsettled(t.jobs)
  {
    forall x ensures x in Unsettled(t'.jobs) <==> x in Unsettled(t.jobs) {
      UnsettledIsMarked(t, x);
      UnsettledIsMarked(t', x);
    }
  }

  lemma UnsettledIsMarked(t: Tables, x: (JobId, nat))
    ensures x in Unsettled(t.jobs) <==> Marked(t, x.0, x.1)
  {
    if Marked(t, x.0, x.1) {
      assert x == (x.0, t.jobs[x.0].builderAttempt.value);
    }
  }

  // ----- Build steps -----

  lemma PumpKeeps(c: Control, id: JobId, event: EventInput, at: Time, c': Control)
    requires Inv(c) && c.process.Some? && BuildStep(c, id, Pumps(event), at, c')
    ensures Inv(c') && JobsEvolve(c.t, c'.t)
  {
    hide OpOk, RequestOk, JobsEvolve;
    var attempt := c.t.jobs[id].attempt;
    var patch := KEEP.(state := Some(Building), queuedAt := Some(None), builderAttempt := Some(Some(attempt)));
    AttemptedKeeps(c.t, id, {Queued}, attempt, patch, Some(event), at);
    AttemptedBecomes(c.t, id, {Queued}, attempt, patch, Some(event), at);
    RestKeeps(c, c');
    PumpMarks(c, id, attempt, c');
  }

  /** The pump starts a call only when no marker is left, and leaves exactly its own. */
  lemma PumpMarks(c: Control, id: JobId, attempt: nat, c': Control)
    requires BuildsOk(c) && JobsEvolve(c.t, c'.t) && NoMarker(c.t)
    requires id in c.t.jobs && c.t.jobs[id].attempt == attempt && c.t.jobs[id].state == Queued
    requires id in c'.t.jobs && c'.t.jobs[id].attempt == attempt && c'.t.jobs[id].state == Building && Marked(c'.t, id, attempt)
    requires c'.t.jobs.Keys == c.t.jobs.Keys && forall other :: other in c.t.jobs && other != id ==> c'.t.jobs[other] == c.t.jobs[other]
    requires c'.begun == c.begun + [(id, attempt)] && c'.settled == c.settled
    requires c.process.Some? && c.process.value.started && c'.process == Some(c.process.value.(active := Some(Call(id, attempt, NoStop, None))))
    ensures BuildsOk(c')
  {
    assert (id, attempt) !in c.begun;
    forall b | b in c'.begun
      ensures b.0 in c'.t.jobs && b.1 <= c'.t.jobs[b.0].attempt && (b.1 == c'.t.jobs[b.0].attempt ==> !Waiting(c'.t.jobs[b.0]))
    {
      if b != (id, attempt) {
        assert b in c.begun;
        assert Evolves(c.t.jobs[b.0], c'.t.jobs[b.0]);
      }
    }
    assert Distinct(c'.begun);
    forall i: JobId, a: nat ensures Marked(c'.t, i, a) <==> (i, a) in c'.begun && (i, a) !in c'.settled {
      assert !Marked(c.t, i, a);
      if i != id {
        assert !Marked(c'.t, i, a);
        assert (i, a) in c'.begun ==> (i, a) in c.begun;
      } else if a != attempt {
        assert (i, a) in c'.begun ==> (i, a) in c.begun;
      }
    }
  }

  lemma SettleKeeps(c: Control, id: JobId, at: Time, c': Control)
    requires Inv(c) && c.process.Some? && BuildStep(c, id, Settles, at, c')
    ensures Inv(c') && JobsEvolve(c.t, c'.t)
  {
    hide OpOk, RequestOk, JobOk, Evolves, JobsEvolve, JobsOk, BegunOk, Distinct;
    var call := c.process.value.active.value;
    assert Marked(c.t, id, call.attempt);
    ClearedJobsKeep(c.t, id, call.attempt);
    SameKeeps(c.t);
    RestKeeps(c, c');
    BegunHas(c, id, call.attempt);
    BegunStaysOk(c, c');
    if !call.recorded.value { ClearedMarkers(c, id, call.attempt, c'); }
  }

  lemma ClearedJobsKeep(t: Tables, id: JobId, attempt: nat)
    requires JobsOk(t)
    ensures JobsOk(BuilderSettled(t, id, attempt)) && JobsEvolve(t, BuilderSettled(t, id, attempt))
  {
    var t' := BuilderSettled(t, id, attempt);
    forall other | other in t.jobs ensures JobOk(t'.jobs[other]) && Evolves(t.jobs[other], t'.jobs[other]) {
      assert JobOk(t.jobs[other]);
    }
  }

  lemma BegunHas(c: Control, id: JobId, attempt: nat)
    requires BegunOk(c) && MarkersAreOpen(c) && Marked(c.t, id, attempt)
    ensures (id, attempt) in c.begun && forall b :: b in c.settled ==> b in c.begun
  {
  }

  /** The only marker goes with its call. */
  lemma ClearedMarkers(c: Control, id: JobId, attempt: nat, c': Control)
    requires MarkersAreOpen(c) && OneMarker(c.t) && Marked(c.t, id, attempt)
    requires c'.t == BuilderSettled(c.t, id, attempt) && c'.begun == c.begun && c'.settled == c.settled + {(id, attempt)}
    ensures MarkersAreOpen(c') && NoMarker(c'.t)
  {
    forall i: JobId, a: nat ensures !Marked(c'.t, i, a) && ((i, a) in c'.begun ==> (i, a) in c'.settled) {
      assert Marked(c.t, i, a) <==> (i, a) in c.begun && (i, a) !in c.settled;
      assert Marked(c.t, i, a) ==> i == id && a == attempt;
    }
  }

  /** A change of the tables that keeps every job in order and leaves every marker alone. */
  ghost predicate Plain(t: Tables, t': Tables) {
    JobsOk(t') && JobsEvolve(t, t') && forall i: JobId, a: nat :: Marked(t', i, a) <==> Marked(t, i, a)
  }

  lemma AttemptedIsPlain(t: Tables, id: JobId, states: set<State>, attempt: nat, p: Patch, event: Option<EventInput>, now: Time)
    requires JobsOk(t) && p.builderAttempt.None?
    requires Guarded(t, id, states, attempt) ==> JobOk(Patched(t.jobs[id], p, now)) && Evolves(t.jobs[id], Patched(t.jobs[id], p, now))
    ensures Plain(t, Attempted(t, id, states, attempt, p, event, now))
  {
    hide JobOk, Evolves;
    AttemptedKeeps(t, id, states, attempt, p, event, now);
  }

  lemma InsertIsPlain(t: Tables, id: JobId, event: EventInput, at: Time)
    requires JobsOk(t) && id in t.jobs
    ensures Plain(t, InsertEvent(t, id, event, at))
  {
    InsertBecomes(t, id, event, at);
    BecomesKeeps(t, InsertEvent(t, id, event, at), id, t.jobs[id]);
  }

  lemma SameIsPlain(t: Tables)
    requires JobsOk(t)
    ensures Plain(t, t)
  {
  }

  lemma PlainTransitive(a: Tables, b: Tables, c: Tables)
    requires Plain(a, b) && Plain(b, c)
    ensures Plain(a, c)
  {
    hide Marked, JobsOk;
    EvolveTransitive(a, b, c);
  }

  lemma QueueIsPlain(t: Tables, id: JobId, event: EventInput, at: Time)
    requires JobsOk(t) && id in t.jobs && t.jobs[id].publication.None? && t.jobs[id].terms.None? && t.jobs[id].state in BUILDABLE
    ensures Plain(t, Attempted(t, id, {t.jobs[id].state}, t.jobs[id].attempt, QueuePatch(t.jobs[id].attempt + 1, at), Some(event), at))
  {
    hide Attempted, Plain;
    assert JobOk(t.jobs[id]);
    AttemptedIsPlain(t, id, {t.jobs[id].state}, t.jobs[id].attempt, QueuePatch(t.jobs[id].attempt + 1, at), Some(event), at);
  }

  lemma CancelIsPlain(t: Tables, id: JobId, patch: Patch, event: EventInput, at: Time)
    requires JobsOk(t) && id in t.jobs && t.jobs[id].state in CANCELLABLE
    requires patch == KEEP.(state := Some(Cancelled), pause := Some(None), queuedAt := Some(None))
    ensures Plain(t, Attempted(t, id, {t.jobs[id].state}, t.jobs[id].attempt, patch, Some(event), at))
  {
    hide Attempted, Plain;
    assert JobOk(t.jobs[id]);
    AttemptedIsPlain(t, id, {t.jobs[id].state}, t.jobs[id].attempt, patch, Some(event), at);
  }

  /** A report of a running build that at most changes its phase or its pause. */
  lemma ReportIsPlain(t: Tables, id: JobId, states: set<State>, attempt: nat, patch: Patch, event: Option<EventInput>, at: Time)
    requires JobsOk(t) && states <= RUNNING
    requires patch == KEEP.(state := patch.state, pause := patch.pause) && (patch.state.Some? ==> patch.state.value == Verifying)
    ensures Plain(t, Attempted(t, id, states, attempt, patch, event, at))
  {
    hide Attempted, Plain;
    assert id in t.jobs ==> JobOk(t.jobs[id]);
    AttemptedIsPlain(t, id, states, attempt, patch, event, at);
  }

  lemma OutputIsPlain(t: Tables, id: JobId, attempt: nat, output: Output, event: EventInput, at: Time)
    requires JobsOk(t)
    ensures Plain(t, Attempted(t, id, RUNNING, attempt, OutputPatch(output), Some(event), at))
  {
    hide Attempted, Plain;
    assert id in t.jobs ==> JobOk(t.jobs[id]);
    AttemptedIsPlain(t, id, RUNNING, attempt, OutputPatch(output), Some(event), at);
  }

  lemma FailureIsPlain(t: Tables, id: JobId, attempt: nat, stop: Stop, reason: Text, event: EventInput, at: Time)
    requires JobsOk(t)
    ensures Plain(t, Attempted(t, id, RUNNING, attempt, KEEP.(state := Some(EndState(stop)), pause := Some(None), error := Some(Some(reason))), Some(event), at))
  {
    hide Attempted, Plain;
    assert id in t.jobs ==> JobOk(t.jobs[id]);
    AttemptedIsPlain(t, id, RUNNING, attempt, KEEP.(state := Some(EndState(stop)), pause := Some(None), error := Some(Some(reason))), Some(event), at);
  }

  /** The steps that leave every marker alone. */
  lemma PlainTables(c: Control, id: JobId, m: BuildMove, at: Time, c': Control)
    requires Inv(c) && c.process.Some? && BuildStep(c, id, m, at, c') && !m.Pumps? && !m.Settles? && !m.Creates?
    ensures Plain(c.t, c'.t)
  {
    hide JobsOk, BuildsOk, OpsOk, SentOk, Plain, Attempted, InsertEvent, KEEP, QueuePatch, OutputPatch, EndState, ShortPause;
    var t := c.t;
    SameIsPlain(t);
    match m
    case Requests(event) => QueueIsPlain(t, id, event, at);
    case Cancels(event) => CancelIsPlain(t, id, KEEP.(state := Some(Cancelled), pause := Some(None), queuedAt := Some(None)), event, at);
    case Logs(attempt, verifying, event) =>
      if IsRunning(t, id, attempt) { InsertIsPlain(t, id, event, at); }
      VerifyingIsPlain(t, id, attempt, event, at);
    case RunsShort(attempt, message, event) =>
      if IsRunning(t, id, attempt) {
        PauseIsPlain(t, id, attempt, Some(ShortPause(t.jobs[id], message, at)), if t.jobs[id].pause.Some? then None else Some(event), at);
      }
    case FundsBack(attempt, event) =>
      if IsRunning(t, id, attempt) { PauseIsPlain(t, id, attempt, None, Some(event), at); }
    case Succeeds(output, event) => OutputIsPlain(t, id, c.process.value.active.value.attempt, output, event, at);
    case Fails(cleanupPending, reason, event) =>
      var call := c.process.value.active.value;
      InsertIsPlain(t, id, event, at);
      var noted := if cleanupPending then InsertEvent(t, id, event, at) else t;
      PlainKeepsOk(t, noted);
      SameIsPlain(noted);
      FailureIsPlain(noted, id, call.attempt, call.stop, reason, event, at);
      PlainTransitive(t, noted, c'.t);
  }

  lemma PlainKeepsOk(t: Tables, t': Tables)
    requires Plain(t, t')
    ensures JobsOk(t')
  {
  }

  lemma VerifyingIsPlain(t: Tables, id: JobId, attempt: nat, event: EventInput, at: Time)
    requires JobsOk(t)
    ensures Plain(t, Attempted(t, id, {Building}, attempt, KEEP.(state := Some(Verifying)), Some(event), at))
  {
    hide Attempted, Plain;
    ReportIsPlain(t, id, {Building}, attempt, KEEP.(state := Some(Verifying)), Some(event), at);
  }

  lemma PauseIsPlain(t: Tables, id: JobId, attempt: nat, pause: Option<Pause>, event: Option<EventInput>, at: Time)
    requires JobsOk(t) && IsRunning(t, id, attempt)
    ensures Plain(t, Attempted(t, id, {t.jobs[id].state}, attempt, KEEP.(pause := Some(pause)), event, at))
  {
    hide Attempted, Plain;
    ReportIsPlain(t, id, {t.jobs[id].state}, attempt, KEEP.(pause := Some(pause)), event, at);
  }

  lemma PlainBuildKeeps(c: Control, id: JobId, m: BuildMove, at: Time, c': Control)
    requires Inv(c) && c.process.Some? && BuildStep(c, id, m, at, c') && !m.Pumps? && !m.Settles? && !m.Creates?
    ensures Inv(c') && JobsEvolve(c.t, c'.t)
  {
    hide JobsOk, BuildsOk, OpsOk, SentOk, Plain, Attempted, InsertEvent, KEEP, QueuePatch, OutputPatch, EndState, ShortPause;
    PlainTables(c, id, m, at, c');
    PlainFinish(c, c');
  }

  lemma PlainFinish(c: Control, c': Control)
    requires Inv(c) && c.process.Some? && Plain(c.t, c'.t)
    requires c'.begun == c.begun && c'.settled == c.settled && c'.sent == c.sent && c'.process.Some?
    requires var p, p' := c.process.value, c'.process.value;
      && p'.ops == p.ops && p'.started == p.started && p'.tried == p.tried && p'.handing == p.handing && (p.halted ==> p'.halted)
      && (p'.active.Some? <==> p.active.Some?)
      && (p'.active.Some? ==>
            && p'.active.value.id == p.active.value.id && p'.active.value.attempt == p.active.value.attempt
            && (p'.active.value.recorded == p.active.value.recorded || (p'.active.value.recorded == Some(true) ==> p'.halted)))
    ensures Inv(c') && JobsEvolve(c.t, c'.t)
  {
    hide OpOk, RequestOk, JobsEvolve, Marked, BegunOk, MarkersAreOpen, OneMarker;
    RestKeeps(c, c');
    SameMarkersKeep(c, c');
  }

  lemma CreateKeeps(c: Control, id: JobId, event: EventInput, at: Time, c': Control)
    requires Inv(c) && c.process.Some? && BuildStep(c, id, Creates(event), at, c')
    ensures Inv(c') && JobsEvolve(c.t, c'.t)
  {
    hide BuildsOk, OpsOk, SentOk;
    var job := Job(c.rows, at, at, Queued, 1, None, None, None, None, None, None, None, None, Some(at), None, 0);
    assert Becomes(c.t, c'.t, id, job);
    BecomesKeeps(c.t, c'.t, id, job);
    PlainFinish(c, c');
  }

  lemma BuildKeeps(c: Control, id: JobId, m: BuildMove, at: Time, c': Control)
    requires Inv(c) && c.process.Some? && BuildStep(c, id, m, at, c')
    ensures Inv(c') && JobsEvolve(c.t, c'.t)
  {
    hide Inv, BuildStep, JobsEvolve;
    match m
    case Creates(event) => CreateKeeps(c, id, event, at, c');
    case Pumps(event) => PumpKeeps(c, id, event, at, c');
    case Settles => SettleKeeps(c, id, at, c');
    case _ => PlainBuildKeeps(c, id, m, at, c');
  }

  // ----- Review and publication steps -----

  lemma ReviewIsPlain(t: Tables, id: JobId, op: Op, notes: Text, event: EventInput, at: Time)
    requires JobsOk(t) && op.Reviewing? && OpOk(t, id, op)
    ensures Plain(t, Attempted(t, id, {AwaitingReview}, op.attempt,
      KEEP.(state := Some(if op.approve then Approved else Rejected), review := Some(Some(Review(op.sha256, op.approve, notes, at)))), Some(event), at))
  {
    hide Attempted, Plain;
    assert JobOk(t.jobs[id]);
    AttemptedIsPlain(t, id, {AwaitingReview}, op.attempt,
      KEEP.(state := Some(if op.approve then Approved else Rejected), review := Some(Some(Review(op.sha256, op.approve, notes, at)))), Some(event), at);
  }

  /** A change of publication data of an approved job, for the approved artifact. */
  lemma PublicationIsPlain(t: Tables, id: JobId, attempt: nat, patch: Patch, event: EventInput, at: Time)
    requires JobsOk(t)
    requires patch == KEEP.(terms := patch.terms, publication := patch.publication, error := patch.error)
    requires patch.terms.Some? ==> patch.terms.value.Some? && ForApproved(t, id, attempt, patch.terms.value.value.artifactSha256)
    requires patch.publication.Some? ==>
      patch.publication.value.Some? && ForApproved(t, id, attempt, patch.publication.value.value.terms.artifactSha256)
    ensures Plain(t, Attempted(t, id, {Approved}, attempt, patch, Some(event), at))
  {
    hide Attempted, Plain;
    assert id in t.jobs ==> JobOk(t.jobs[id]);
    AttemptedIsPlain(t, id, {Approved}, attempt, patch, Some(event), at);
  }

  lemma PublicationTables(c: Control, id: JobId, m: PublicationMove, at: Time, c': Control)
    requires Inv(c) && c.process.Some? && PublicationStep(c, id, m, at, c')
    ensures Plain(c.t, c'.t)
  {
    hide JobsOk, BuildsOk, SentOk, Plain, Transition, IsReviewed, Preparable;
    var t, ops := c.t, c.process.value.ops;
    SameIsPlain(t);
    match m
    case ReviewEnds(notes, event) => ReviewIsPlain(t, id, ops[id], notes, event, at);
    case PrepareSends(event) => PublicationIsPlain(t, id, ops[id].attempt, KEEP.(terms := Some(Some(ops[id].terms))), event, at);
    case PublishSends(event) =>
      PublicationIsPlain(t, id, ops[id].attempt,
        KEEP.(publication := Some(Some(ops[id].view.(state := P.Publishing, error := None))), error := Some(None)), event, at);
    case Replies(view, error, event) =>
      ReplyTermsOk(t, id, ops[id]);
      PublicationIsPlain(t, id, ops[id].attempt, KEEP.(publication := Some(Some(view)), error := Some(error)), event, at);
    case PrepareFails(reason, event) =>
      PublicationIsPlain(t, id, ops[id].attempt, KEEP.(error := Some(Some(reason))), event, at);
    case _ =>
  }

  lemma ReplyTermsOk(t: Tables, id: JobId, op: Op)
    requires OpOk(t, id, op) && ReplyTerms(op).Some?
    ensures ForApproved(t, id, op.attempt, ReplyTerms(op).value.artifactSha256)
  {
  }

  lemma PublicationKeeps(c: Control, id: JobId, m: PublicationMove, at: Time, c': Control)
    requires Inv(c) && c.process.Some? && PublicationStep(c, id, m, at, c')
    ensures Inv(c') && JobsEvolve(c.t, c'.t)
  {
    hide BuildsOk, JobsOk, JobsEvolve, Transition, Attempted, Evolves;
    PublicationTables(c, id, m, at, c');
    assert JobsOk(c'.t) && JobsEvolve(c.t, c'.t);
    PublicationOps(c, id, m, at, c');
    RestKeeps(c, c');
    SameProcessKeeps(c, c');
  }

  lemma SameProcessKeeps(c: Control, c': Control)
    requires BuildsOk(c) && Plain(c.t, c'.t) && c.process.Some?
    requires c'.begun == c.begun && c'.settled == c.settled
    requires c'.process.Some? && c'.process.value == c.process.value.(ops := c'.process.value.ops)
    ensures BuildsOk(c')
  {
    hide JobsEvolve, Marked, BegunOk, MarkersAreOpen, OneMarker, JobsOk;
    SameMarkersKeep(c, c');
  }

  /** The operation that a step starts or moves on is checked, and so is the request that it sends. */
  lemma PublicationOps(c: Control, id: JobId, m: PublicationMove, at: Time, c': Control)
    requires Inv(c) && c.process.Some? && PublicationStep(c, id, m, at, c') && JobsOk(c'.t) && JobsEvolve(c.t, c'.t)
    ensures c'.process.Some? && forall x :: x in c'.process.value.ops ==>
      || (x in c.process.value.ops && c'.process.value.ops[x] == c.process.value.ops[x])
      || OpOk(c'.t, x, c'.process.value.ops[x])
    ensures forall r :: r in c'.sent ==> r in c.sent || RequestOk(c'.t, r)
  {
    hide BuildsOk, SentOk, JobsEvolve, JobsOk, Attempted, InsertEvent, OpOk, RequestOk;
    match m
    case ReviewBegins(approve, sha256) => NewOpOk(c.t, id, Reviewing(c.t.jobs[id].attempt, approve, sha256), sha256);
    case PrepareBegins(terms) => NewOpOk(c.t, id, Freezing(c.t.jobs[id].attempt, terms), terms.artifactSha256);
    case PublishBegins(sha256, maxDebit) =>
      NewOpOk(c.t, id, CheckingPublish(c.t.jobs[id].attempt, c.t.jobs[id].publication.value, sha256, maxDebit), sha256);
    case RefreshBegins => RefreshOpOk(c, id);
    case PrepareSends(event) =>
      var op := c.process.value.ops[id];
      OpStaysOk(c.t, c'.t, id, op);
      SentPrepareOk(c.t, c'.t, id, op);
    case PublishSends(event) =>
      var op := c.process.value.ops[id];
      OpStaysOk(c.t, c'.t, id, op);
      SentPublishOk(c'.t, id, op);
    case _ =>
  }

  lemma NewOpOk(t: Tables, id: JobId, op: Op, sha256: nat)
    requires id in t.jobs && op.attempt == t.jobs[id].attempt && ForArtifact(t.jobs[id], sha256)
    requires match op
      case Reviewing(_, _, sha) => sha == sha256 && t.jobs[id].state in REVIEWABLE
      case Freezing(_, terms) => terms.artifactSha256 == sha256 && t.jobs[id].state == Approved
      case AwaitingPrepare(_, terms) => terms.artifactSha256 == sha256 && t.jobs[id].state == Approved
      case CheckingPublish(_, view, sha, _) => view.terms.artifactSha256 == sha256 && sha == sha256 && t.jobs[id].state == Approved
      case AwaitingPublish(_, view) => view.terms.artifactSha256 == sha256 && t.jobs[id].state == Approved
      case Refreshing(_, terms) => terms.artifactSha256 == sha256 && t.jobs[id].state == Approved
    ensures OpOk(t, id, op)
  {
  }

  lemma RefreshOpOk(c: Control, id: JobId)
    requires JobsOk(c.t) && id in c.t.jobs && c.t.jobs[id].state == Approved
    requires c.t.jobs[id].publication.Some? || c.t.jobs[id].terms.Some?
    ensures var terms := if c.t.jobs[id].publication.Some? then c.t.jobs[id].publication.value.terms else c.t.jobs[id].terms.value;
      OpOk(c.t, id, Refreshing(c.t.jobs[id].attempt, terms))
  {
    assert JobOk(c.t.jobs[id]);
  }

  lemma SentPrepareOk(t: Tables, t': Tables, id: JobId, op: Op)
    requires op.Freezing? && OpOk(t', id, op) && OpOk(t, id, op) && JobsEvolve(t, t')
    requires t.jobs[id].artifact.Some?
    ensures OpOk(t', id, AwaitingPrepare(op.attempt, op.terms))
    ensures RequestOk(t', PrepareRequest(id, op.terms, t.jobs[id].artifact.value))
  {
    assert Evolves(t.jobs[id], t'.jobs[id]);
  }

  lemma SentPublishOk(t: Tables, id: JobId, op: Op)
    requires op.CheckingPublish? && OpOk(t, id, op)
    ensures OpOk(t, id, AwaitingPublish(op.attempt, op.view)) && RequestOk(t, PublishRequest(id, op.sha256, op.maxDebit))
  {
  }

  // ----- Restart, start and shutdown -----

  lemma RecoveredJobEvolves(job: Job, at: Time)
    requires JobOk(job)
    ensures var r := RecoveredJob(job, at); JobOk(r) && Evolves(job, r) && r.builderAttempt == job.builderAttempt
  {
  }

  lemma RecoveredIsPlain(t: Tables, t': Tables, done: set<JobId>, at: Time)
    requires JobsOk(t) && RecoveredTables(t, t', done, at)
    ensures Plain(t, t')
  {
    hide RecoveredJob;
    forall id | id in t.jobs
      ensures JobOk(t'.jobs[id]) && Evolves(t.jobs[id], t'.jobs[id]) && t'.jobs[id].builderAttempt == t.jobs[id].builderAttempt
    {
      RecoveredJobEvolves(t.jobs[id], at);
    }
  }

  /** After a restart nothing is building, and no publish request is believed to be in flight. */
  lemma RestartEndsBuilds(t: Tables, t': Tables, at: Time, id: JobId)
    requires JobsOk(t) && RecoveredTables(t, t', t.jobs.Keys, at) && id in t'.jobs
    ensures t'.jobs[id].state !in RUNNING
    ensures t'.jobs[id].publication.Some? && t'.jobs[id].state == Approved ==> t'.jobs[id].publication.value.state != P.Publishing
    ensures t'.jobs[id].state == Interrupted || t'.jobs[id].state == t.jobs[id].state
  {
  }

  lemma NoProcessKeeps(c: Control, c': Control)
    requires Inv(c) && Plain(c.t, c'.t) && (c'.process.None? || (c.process.None? && c'.process == Some(FRESH)))
    requires c'.begun == c.begun && c'.settled == c.settled && c'.sent == c.sent
    ensures Inv(c') && JobsEvolve(c.t, c'.t)
  {
    hide JobsEvolve, Marked, JobsOk, OpOk, RequestOk, Distinct;
    RestKeeps(c, c');
    BegunStaysOk(c, c');
  }

  lemma ClearHandedEvolves(t: Tables, handed: set<(JobId, nat)>)
    requires JobsOk(t)
    ensures var t' := ClearHanded(t, handed); JobsOk(t') && JobsEvolve(t, t') && t'.jobs.Keys == t.jobs.Keys
  {
    var t' := ClearHanded(t, handed);
    forall id | id in t.jobs ensures JobOk(t'.jobs[id]) && Evolves(t.jobs[id], t'.jobs[id]) {
      assert JobOk(t.jobs[id]);
    }
  }

  /** Recovery got every open builder call, so afterwards no marker is left and none is open. */
  lemma ClearsAll(c: Control, at: Time, c': Control)
    requires Inv(c) && ProcessStep(c, StartClears, at, c')
    ensures Inv(c') && JobsEvolve(c.t, c'.t)
  {
    hide OpOk, RequestOk, JobOk, Evolves;
    var handed := c.process.value.handing.value;
    ClearHandedEvolves(c.t, handed);
    RestKeeps(c, c');
    forall b | b in handed ensures b in c.begun && b !in c.settled {
      UnsettledIsMarked(c.t, b);
      assert Marked(c.t, b.0, b.1) <==> (b.0, b.1) in c.begun && (b.0, b.1) !in c.settled;
    }
    BegunStaysOk(c, c');
    forall i: JobId, a: nat ensures !Marked(c'.t, i, a) && ((i, a) in c'.begun ==> (i, a) in c'.settled) {
      UnsettledIsMarked(c.t, (i, a));
      assert Marked(c.t, i, a) <==> (i, a) in c.begun && (i, a) !in c.settled;
    }
  }

  lemma ProcessKeeps(c: Control, m: ProcessMove, at: Time, c': Control)
    requires Inv(c) && ProcessStep(c, m, at, c')
    ensures Inv(c') && JobsEvolve(c.t, c'.t)
  {
    hide JobsOk, Plain, BegunOk, MarkersAreOpen, OneMarker, OpsOk, SentOk, RecoveredTables, Evolves;
    SameKeeps(c.t);
    SameIsPlain(c.t);
    match m
    case Boots =>
      RecoveredIsPlain(c.t, c'.t, c.t.jobs.Keys, at);
      NoProcessKeeps(c, c');
    case BootStops(done) =>
      RecoveredIsPlain(c.t, c'.t, done, at);
      NoProcessKeeps(c, c');
    case StartReads =>
      StartReadsKeeps(c, at, c');
    case StartClears => ClearsAll(c, at, c');
    case StartRejects => OnlyProcessChanges(c, c');
    case Closes => OnlyProcessChanges(c, c');
    case Stops => NoProcessKeeps(c, c');
  }

  lemma OnlyProcessChanges(c: Control, c': Control)
    requires Inv(c) && ProcessOk(c') && c' == c.(process := c'.process, handed := c'.handed)
    requires c.process.Some? && c'.process.Some? && c'.process.value.ops == c.process.value.ops
    ensures Inv(c')
  {
    hide OpOk, RequestOk;
  }

  lemma StartReadsKeeps(c: Control, at: Time, c': Control)
    requires Inv(c) && ProcessStep(c, StartReads, at, c')
    ensures Inv(c') && JobsEvolve(c.t, c'.t)
  {
    hide OpOk, RequestOk, JobsOk, BegunOk, MarkersAreOpen, OneMarker, Evolves;
    SameKeeps(c.t);
    if Unsettled(c.t.jobs) == {} {
      forall i: JobId, a: nat ensures !Marked(c.t, i, a) {
        UnsettledIsMarked(c.t, (i, a));
      }
    }
    OnlyProcessChanges(c, c');
  }

  lemma NextKeeps(c: Control, step: Step, c': Control)
    requires Inv(c) && Next(c, step, c')
    ensures Inv(c') && JobsEvolve(c.t, c'.t)
  {
    hide Inv, BuildStep, PublicationStep, ProcessStep, JobsEvolve;
    match step
    case Build(id, b, at) => BuildKeeps(c, id, b, at, c');
    case Publication(id, p, at) => PublicationKeeps(c, id, p, at, c');
    case OfProcess(m, at) => ProcessKeeps(c, m, at, c');
  }

  // ----- Whole runs -----

  ghost predicate Follows(c: Control, c': Control) {
    exists step :: Next(c, step, c')
  }

  ghost predicate Run(run: seq<Control>) {
    && run != [] && Initial(run[0])
    && forall i, j :: 0 <= i && j == i + 1 && j < |run| ==> Follows(run[i], run[j])
  }

  lemma InitialOk(c: Control)
    requires Initial(c)
    ensures Inv(c)
  {
  }

  lemma {:induction false} RunKeeps(run: seq<Control>, i: nat)
    requires Run(run) && i < |run|
    ensures Inv(run[i])
  {
    hide Inv, Initial, Next, JobsEvolve;
    if i == 0 {
      InitialOk(run[0]);
    } else {
      RunKeeps(run, i - 1);
      assert Follows(run[i - 1], run[i]);
      var step :| Next(run[i - 1], step, run[i]);
      NextKeeps(run[i - 1], step, run[i]);
    }
  }

  lemma {:induction false} RunEvolves(run: seq<Control>, i: nat, j: nat)
    requires Run(run) && i <= j < |run|
    ensures JobsEvolve(run[i].t, run[j].t)
    decreases j
  {
    hide Inv, Initial, Next, JobsEvolve;
    if i == j {
      SameKeeps(run[i].t);
    } else {
      RunEvolves(run, i, j - 1);
      RunKeeps(run, j - 1);
      assert Follows(run[j - 1], run[j]);
      var step :| Next(run[j - 1], step, run[j]);
      NextKeeps(run[j - 1], step, run[j]);
      EvolveTransitive(run[i].t, run[j - 1].t, run[j].t);
    }
  }

  /** The builder calls that began and have neither settled nor been recovered. */
  function OpenCalls(c: Control): set<(JobId, nat)> {
    set b | b in c.begun && b !in c.settled
  }

  /** The unsettled markers are the open calls, and at most one job in the whole table has one. */
  lemma MarkersAreTheOpenCalls(run: seq<Control>, i: nat)
    requires Run(run) && i < |run|
    ensures Unsettled(run[i].t.jobs) == OpenCalls(run[i]) && |OpenCalls(run[i])| <= 1
  {
    hide Run, JobsOk, OpsOk, SentOk, BegunOk, ProcessOk;
    RunKeeps(run, i);
    var c := run[i];
    forall b ensures b in Unsettled(c.t.jobs) <==> b in OpenCalls(c) {
      UnsettledIsMarked(c.t, b);
      assert Marked(c.t, b.0, b.1) <==> (b.0, b.1) in c.begun && (b.0, b.1) !in c.settled;
    }
    if Unsettled(c.t.jobs) != {} {
      var one :| one in Unsettled(c.t.jobs);
      UnsettledIsMarked(c.t, one);
      forall b | b in Unsettled(c.t.jobs) ensures b == one {
        UnsettledIsMarked(c.t, b);
        assert Marked(c.t, b.0, b.1) && Marked(c.t, one.0, one.1);
      }
      assert Unsettled(c.t.jobs) == {one};
    }
  }

  /** A build starts only when no builder call is open, not even one from before a crash. */
  lemma NoBuildWhileOneIsOpen(run: seq<Control>, i: nat, id: JobId, event: EventInput, at: Time)
    requires Run(run) && i + 1 < |run| && Next(run[i], Build(id, Pumps(event), at), run[i + 1])
    ensures OpenCalls(run[i]) == {}
    ensures OpenCalls(run[i + 1]) == {(id, run[i].t.jobs[id].attempt)}
  {
    hide Run, JobsOk, OpsOk, SentOk, Attempted;
    RunKeeps(run, i);
    var c, c' := run[i], run[i + 1];
    var started := (id, c.t.jobs[id].attempt);
    forall b | b in c.begun ensures b in c.settled {
      assert !Marked(c.t, b.0, b.1);
      assert b == (b.0, b.1);
    }
    assert started !in c.begun;
    assert started in c'.begun;
  }

  /** Start hands recovery exactly the attempts whose builder call never settled. */
  lemma StartHandsExactlyTheOpenCalls(run: seq<Control>, i: nat, at: Time)
    requires Run(run) && i + 1 < |run| && Next(run[i], OfProcess(StartReads, at), run[i + 1])
    ensures OpenCalls(run[i]) == {} ==> run[i + 1].process.value.started && run[i + 1].handed == run[i].handed
    ensures OpenCalls(run[i]) != {} ==>
      !run[i + 1].process.value.started && run[i + 1].handed == run[i].handed + [OpenCalls(run[i])]
  {
    hide Run, Inv, OpenCalls, Unsettled;
    MarkersAreTheOpenCalls(run, i);
    StartReadsFacts(run, i);
  }

  lemma StartReadsFacts(run: seq<Control>, i: nat)
    requires Run(run) && i < |run|
    ensures run[i].process.Some? && !run[i].process.value.tried ==> !run[i].process.value.started
  {
    hide Run, JobsOk, OpsOk, SentOk, BegunOk, MarkersAreOpen, OneMarker;
    RunKeeps(run, i);
  }

  /** Over all restarts each attempt of a job starts the builder at most once. */
  lemma EachAttemptBuildsOnce(run: seq<Control>, i: nat)
    requires Run(run) && i < |run|
    ensures Distinct(run[i].begun)
  {
    hide Run, JobsOk, OpsOk, SentOk, ProcessOk, MarkersAreOpen, OneMarker, Distinct;
    RunKeeps(run, i);
  }

  lemma AttemptsOnlyGrow(run: seq<Control>, i: nat, j: nat, id: JobId)
    requires Run(run) && i <= j < |run| && id in run[i].t.jobs
    ensures id in run[j].t.jobs && run[i].t.jobs[id].attempt <= run[j].t.jobs[id].attempt
  {
    hide Run;
    RunEvolves(run, i, j);
    assert Evolves(run[i].t.jobs[id], run[j].t.jobs[id]);
  }

  lemma PauseOnlyWhileBuilding(run: seq<Control>, i: nat, id: JobId)
    requires Run(run) && i < |run| && id in run[i].t.jobs && run[i].t.jobs[id].pause.Some?
    ensures run[i].t.jobs[id].state in RUNNING
  {
    hide Run, BuildsOk, OpsOk, SentOk;
    RunKeeps(run, i);
    assert JobOk(run[i].t.jobs[id]);
  }

  /** The attempt that a builder report or the end of a builder call speaks for. */
  function ReportedAttempt(c: Control, m: BuildMove): Option<nat>
  {
    match m
    case Logs(attempt, _, _) => Some(attempt)
    case RunsShort(attempt, _, _) => Some(attempt)
    case FundsBack(attempt, _) => Some(attempt)
    case Succeeds(_, _) => if c.process.Some? && c.process.value.active.Some? then Some(c.process.value.active.value.attempt) else None
    case Fails(_, _, _) => if c.process.Some? && c.process.value.active.Some? then Some(c.process.value.active.value.attempt) else None
    case Settles => if c.process.Some? && c.process.value.active.Some? then Some(c.process.value.active.value.attempt) else None
    case _ => None
  }

  /** What a report of an attempt that is no longer running leaves alone: everything but the log and the marker. */
  predicate SameOutcome(a: Job, b: Job) {
    b == a.(lastSeq := b.lastSeq, builderAttempt := b.builderAttempt)
  }

  lemma StaleReportStep(c: Control, id: JobId, m: BuildMove, at: Time, c': Control)
    requires c.process.Some? && BuildStep(c, id, m, at, c')
    requires ReportedAttempt(c, m).Some? && !IsRunning(c.t, id, ReportedAttempt(c, m).value)
    ensures c'.t.jobs.Keys == c.t.jobs.Keys
    ensures forall other :: other in c.t.jobs ==> SameOutcome(c.t.jobs[other], c'.t.jobs[other])
  {
    hide KEEP, OutputPatch, EndState, IsNext;
    match m
    case Fails(cleanupPending, reason, event) =>
      var noted := if cleanupPending then InsertEvent(c.t, id, event, at) else c.t;
      assert !Guarded(noted, id, RUNNING, c.process.value.active.value.attempt);
    case _ =>
  }

  /** An attempt that was cancelled, interrupted, finished or superseded. */
  predicate Over(t: Tables, id: JobId, attempt: nat) {
    id in t.jobs && (attempt < t.jobs[id].attempt || (attempt == t.jobs[id].attempt && Finished(t.jobs[id])))
  }

  /** A builder call that was started for an attempt that is not running speaks for an attempt that is over. */
  lemma BegunAndNotRunningIsOver(run: seq<Control>, i: nat, id: JobId, attempt: nat)
    requires Run(run) && i < |run| && (id, attempt) in run[i].begun && !IsRunning(run[i].t, id, attempt)
    ensures Over(run[i].t, id, attempt)
  {
    hide Run, JobsOk, MarkersAreOpen, OneMarker, ProcessOk, OpsOk, SentOk, Distinct;
    RunKeeps(run, i);
    assert (id, attempt).0 == id && (id, attempt).1 == attempt;
  }

  /** An attempt that is over never runs again, over all restarts. */
  lemma OverStaysOver(run: seq<Control>, i: nat, j: nat, id: JobId, attempt: nat)
    requires Run(run) && i <= j < |run| && Over(run[i].t, id, attempt)
    ensures Over(run[j].t, id, attempt) && !IsRunning(run[j].t, id, attempt)
  {
    hide Run;
    RunEvolves(run, i, j);
    assert Evolves(run[i].t.jobs[id], run[j].t.jobs[id]);
  }

  /**
   Whatever an attempt reports once it is over, at any later time and after any
   restarts, changes no job: no state, no artifact, no pause, no other column but
   the event counter and the marker of its builder call.
   */
  lemma LateReportChangesNothing(run: seq<Control>, i: nat, j: nat, id: JobId, attempt: nat, m: BuildMove, at: Time)
    requires Run(run) && i <= j && j + 1 < |run| && Over(run[i].t, id, attempt)
    requires Next(run[j], Build(id, m, at), run[j + 1]) && ReportedAttempt(run[j], m) == Some(attempt)
    ensures run[j + 1].t.jobs.Keys == run[j].t.jobs.Keys
    ensures forall other :: other in run[j].t.jobs ==> SameOutcome(run[j].t.jobs[other], run[j + 1].t.jobs[other])
    ensures Over(run[j + 1].t, id, attempt)
  {
    hide Run, BuildStep, Over, SameOutcome;
    OverStaysOver(run, i, j, id, attempt);
    OverStaysOver(run, i, j + 1, id, attempt);
    StaleReportStep(run[j], id, m, at, run[j + 1]);
  }

  /**
   Once approved, a job's attempt, artifact and review never change; the review
   names the artifact's digest, and so does everything stored for publication.
   */
  lemma ApprovalFreezes(run: seq<Control>, i: nat, j: nat, id: JobId)
    requires Run(run) && i <= j < |run| && id in run[i].t.jobs && run[i].t.jobs[id].state == Approved
    ensures id in run[j].t.jobs
    ensures var a, b := run[i].t.jobs[id], run[j].t.jobs[id];
      && b.state == Approved && b.attempt == a.attempt && b.artifact == a.artifact && b.review == a.review
      && b.artifact.Some? && b.review.Some? && b.review.value.artifactSha256 == b.artifact.value.sha256 && b.review.value.attested
      && (b.terms.Some? ==> b.terms.value.artifactSha256 == a.artifact.value.sha256)
      && (b.publication.Some? ==> b.publication.value.terms.artifactSha256 == a.artifact.value.sha256)
  {
    hide Run, BuildsOk, OpsOk, SentOk;
    RunEvolves(run, i, j);
    RunKeeps(run, i);
    RunKeeps(run, j);
    assert Evolves(run[i].t.jobs[id], run[j].t.jobs[id]);
    assert JobOk(run[i].t.jobs[id]) && JobOk(run[j].t.jobs[id]);
  }

  /** Publication data of any job, in any reachable state, is for the artifact that was approved. */
  lemma PublicationNamesApprovedArtifact(run: seq<Control>, i: nat, id: JobId)
    requires Run(run) && i < |run| && id in run[i].t.jobs
    requires run[i].t.jobs[id].terms.Some? || run[i].t.jobs[id].publication.Some?
    ensures var job := run[i].t.jobs[id];
      && job.state == Approved && job.artifact.Some? && job.review.Some? && job.review.value.artifactSha256 == job.artifact.value.sha256
      && (job.terms.Some? ==> job.terms.value.artifactSha256 == job.artifact.value.sha256)
      && (job.publication.Some? ==> job.publication.value.terms.artifactSha256 == job.artifact.value.sha256)
  {
    hide Run, BuildsOk, OpsOk, SentOk;
    RunKeeps(run, i);
    assert JobOk(run[i].t.jobs[id]);
  }
}

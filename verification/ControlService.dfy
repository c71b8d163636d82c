/**
 The control service as a step system over its store, its process and the
 requests it has sent to the publisher. A step is the synchronous code between
 two waits, the end of a builder call, a restart, or a crash. Builder callbacks
 may come late and from any attempt.
 */
module ControlService {
  import opened Prelude
  import opened ControlStore
  import P = PublisherTables

  /** Why the running build was told to stop. */
  datatype Stop = NoStop | CancelStop | ShutdownStop

  /** The running builder call; `recorded` is set once its outcome is stored, with cleanup still pending or not. */
  datatype Call = Call(id: JobId, attempt: nat, stop: Stop, recorded: Option<bool>)

  /** The verified output of a build. */
  datatype Output = Output(artifact: P.Artifact, archivePath: Text, filesDir: Text)

  /** What a job is busy with while the service waits for a file check or a reply. */
  datatype Op =
    | Reviewing(attempt: nat, approve: bool, sha256: nat)
    | Freezing(attempt: nat, terms: P.Terms)
    | AwaitingPrepare(attempt: nat, terms: P.Terms)
    | CheckingPublish(attempt: nat, view: PublicationView, sha256: nat, maxDebit: nat)
    | AwaitingPublish(attempt: nat, view: PublicationView)
    | Refreshing(attempt: nat, terms: P.Terms)

  datatype Process = Process(
    tried: bool, handing: Option<set<(JobId, nat)>>, started: bool, closed: bool, halted: bool,
    active: Option<Call>, ops: map<JobId, Op>)

  /** What crosses the network to the publisher. */
  datatype Request =
    | PrepareRequest(id: JobId, terms: P.Terms, artifact: P.Artifact)
    | PublishRequest(id: JobId, sha256: nat, maxDebit: nat)

  /**
   `begun` lists the builder calls ever started, `settled` those that released
   their resources (or were recovered), `handed` what each start gave to recovery.
   */
  datatype Control = Control(
    t: Tables, rows: nat, process: Option<Process>, sent: set<Request>,
    begun: seq<(JobId, nat)>, settled: set<(JobId, nat)>, handed: seq<set<(JobId, nat)>>)

  const FRESH := Process(false, None, false, false, false, None, map[])

  const BUILDABLE: set<State> := {Submitted, Failed, Interrupted, Cancelled, Rejected}
  const CANCELLABLE: set<State> := {Queued, Building, Verifying}
  const RUNNING: set<State> := {Building, Verifying}

  datatype BuildMove =
    | Creates(event: EventInput)
    | Requests(event: EventInput)
    | Cancels(event: EventInput)
    | Pumps(event: EventInput)
    | Logs(attempt: nat, verifying: bool, event: EventInput)
    | RunsShort(attempt: nat, message: Text, event: EventInput)
    | FundsBack(attempt: nat, event: EventInput)
    | Succeeds(output: Output, event: EventInput)
    | Fails(cleanupPending: bool, reason: Text, event: EventInput)
    | Settles

  datatype PublicationMove =
    | ReviewBegins(approve: bool, sha256: nat)
    | ReviewEnds(notes: Text, event: EventInput)
    | PrepareBegins(terms: P.Terms)
    | PrepareSends(event: EventInput)
    | PublishBegins(sha256: nat, maxDebit: nat)
    | PublishSends(event: EventInput)
    | RefreshBegins
    | Replies(view: PublicationView, error: Option<Text>, event: EventInput)
    | PrepareFails(reason: Text, event: EventInput)
    | OpEnds

  datatype ProcessMove =
    | Boots
    | BootStops(done: set<JobId>)
    | StartReads
    | StartClears
    | StartRejects
    | Closes
    | Stops

  datatype Step =
    | Build(id: JobId, b: BuildMove, at: Time)
    | Publication(id: JobId, p: PublicationMove, at: Time)
    | OfProcess(m: ProcessMove, at: Time)

  // ----- Builds -----

  predicate IsRunning(t: Tables, id: JobId, attempt: nat) {
    Guarded(t, id, RUNNING, attempt)
  }

  function QueuePatch(attempt: nat, now: Time): Patch {
    KEEP.(state := Some(Queued), attempt := Some(attempt), pause := Some(None), artifact := Some(None), archivePath := Some(None),
          filesDir := Some(None), review := Some(None), error := Some(None), queuedAt := Some(Some(now)))
  }

  function OutputPatch(output: Output): Patch {
    KEEP.(state := Some(AwaitingReview), pause := Some(None), artifact := Some(Some(output.artifact)),
          archivePath := Some(Some(output.archivePath)), filesDir := Some(Some(output.filesDir)), error := Some(None))
  }

  /** The first refusal starts the pause; later ones of the same pause refresh it. */
  function ShortPause(job: Job, message: Text, now: Time): Pause {
    Pause(if job.pause.Some? then job.pause.value.since else now, now, message)
  }

  /** The tables after a transition, or the same tables when another one won. */
  function Attempted(t: Tables, id: JobId, states: set<State>, attempt: nat, p: Patch, event: Option<EventInput>, now: Time): Tables {
    var done := Transition(t, id, states, attempt, p, event, now);
    if done.Some? then done.value else t
  }

  /** The state in which a build ends that was stopped or failed. */
  function EndState(stop: Stop): State {
    if stop == ShutdownStop then Interrupted else Failed
  }

  ghost predicate BuildStep(c: Control, id: JobId, m: BuildMove, at: Time, c': Control)
    requires c.process.Some?
  {
    var p, t := c.process.value, c.t;
    match m
    case Creates(event) =>
      && !p.closed && !p.halted && id !in t.jobs
      && c' == c.(t := Create(t, id, c.rows, event, at), rows := c.rows + 1)
    case Requests(event) =>
      && !p.closed && id in t.jobs && t.jobs[id].publication.None? && t.jobs[id].terms.None? && t.jobs[id].state in BUILDABLE
      && var job := t.jobs[id];
         c' == c.(t := Attempted(t, id, {job.state}, job.attempt, QueuePatch(job.attempt + 1, at), Some(event), at))
    case Cancels(event) =>
      && !p.closed && id in t.jobs && t.jobs[id].state in CANCELLABLE
      && var job := t.jobs[id];
         var patch := KEEP.(state := Some(Cancelled), pause := Some(None), queuedAt := Some(None));
         c' == c.(t := Attempted(t, id, {job.state}, job.attempt, patch, Some(event), at),
                  process := Some(if p.active.Some? && p.active.value.id == id && p.active.value.attempt == job.attempt
                                  then p.(active := Some(Stopped(p.active.value, CancelStop))) else p))
    case Pumps(event) =>
      && p.started && !p.closed && p.active.None? && !p.halted && IsNext(t.jobs, Some(id))
      && var job := t.jobs[id];
         var patch := KEEP.(state := Some(Building), queuedAt := Some(None), builderAttempt := Some(Some(job.attempt)));
         c' == c.(t := Attempted(t, id, {Queued}, job.attempt, patch, Some(event), at),
                  process := Some(p.(active := Some(Call(id, job.attempt, NoStop, None)))),
                  begun := c.begun + [(id, job.attempt)])
    case Logs(attempt, verifying, event) =>
      c' == c.(t := if !IsRunning(t, id, attempt) then t
                    else if verifying && t.jobs[id].state == Building
                    then Attempted(t, id, {Building}, attempt, KEEP.(state := Some(Verifying)), Some(event), at)
                    else InsertEvent(t, id, event, at))
    case RunsShort(attempt, message, event) =>
      c' == c.(t := if !IsRunning(t, id, attempt) then t
                    else Attempted(t, id, {t.jobs[id].state}, attempt, KEEP.(pause := Some(Some(ShortPause(t.jobs[id], message, at)))),
                                   if t.jobs[id].pause.Some? then None else Some(event), at))
    case FundsBack(attempt, event) =>
      c' == c.(t := if !IsRunning(t, id, attempt) then t
                    else Attempted(t, id, {t.jobs[id].state}, attempt, KEEP.(pause := Some(None)), Some(event), at))
    case Succeeds(output, event) =>
      && p.active.Some? && p.active.value.id == id && p.active.value.recorded.None? && p.active.value.stop == NoStop
      && c' == c.(t := Attempted(t, id, RUNNING, p.active.value.attempt, OutputPatch(output), Some(event), at),
                  process := Some(p.(active := Some(p.active.value.(recorded := Some(false))))))
    case Fails(cleanupPending, reason, event) =>
      && p.active.Some? && p.active.value.id == id && p.active.value.recorded.None? && id in t.jobs
      && var call := p.active.value;
         var noted := if cleanupPending then InsertEvent(t, id, event, at) else t;
         var patch := KEEP.(state := Some(EndState(call.stop)), pause := Some(None), error := Some(Some(reason)));
         c' == c.(t := if call.stop == CancelStop then noted else Attempted(noted, id, RUNNING, call.attempt, patch, Some(event), at),
                  process := Some(p.(active := Some(call.(recorded := Some(cleanupPending))), halted := p.halted || cleanupPending)))
    case Settles =>
      && p.active.Some? && p.active.value.id == id && p.active.value.recorded.Some?
      && var call := p.active.value;
         var c1 := c.(process := Some(p.(active := None)));
         c' == if call.recorded.value then c1
               else c1.(t := BuilderSettled(t, id, call.attempt), settled := c.settled + {(id, call.attempt)})
  }

  function Stopped(call: Call, stop: Stop): Call {
    if call.stop == NoStop then call.(stop := stop) else call
  }

  // ----- Review and publication -----

  /** The approved, reviewed artifact that a publication step may use. */
  predicate IsReviewed(t: Tables, id: JobId, sha256: nat) {
    && id in t.jobs && t.jobs[id].state == Approved && t.jobs[id].artifact.Some? && t.jobs[id].review.Some?
    && t.jobs[id].review.value.artifactSha256 == t.jobs[id].artifact.value.sha256
    && sha256 == t.jobs[id].artifact.value.sha256
  }

  /** Nothing has been prepared yet, or what was prepared failed and signed nothing. */
  predicate Preparable(job: Job) {
    job.publication.Some? ==> job.publication.value.state == P.Failed && job.publication.value.tx.None?
  }

  /** The terms that a reply must name for the operation to store it. */
  function ReplyTerms(op: Op): Option<P.Terms> {
    match op
    case AwaitingPrepare(_, terms) => Some(terms)
    case AwaitingPublish(_, view) => Some(view.terms)
    case Refreshing(_, terms) => Some(terms)
    case _ => None
  }

  predicate Idle(p: Process, id: JobId) {
    !p.closed && id !in p.ops
  }

  function WithOp(c: Control, id: JobId, op: Op): Control
    requires c.process.Some?
  {
    c.(process := Some(c.process.value.(ops := c.process.value.ops[id := op])))
  }

  function WithoutOp(c: Control, id: JobId): Control
    requires c.process.Some?
  {
    c.(process := Some(c.process.value.(ops := c.process.value.ops - {id})))
  }

  ghost predicate PublicationStep(c: Control, id: JobId, m: PublicationMove, at: Time, c': Control)
    requires c.process.Some?
  {
    var p, t := c.process.value, c.t;
    match m
    case ReviewBegins(approve, sha256) =>
      && Idle(p, id) && id in t.jobs && t.jobs[id].state == AwaitingReview && t.jobs[id].artifact.Some?
      && sha256 == t.jobs[id].artifact.value.sha256
      && c' == WithOp(c, id, Reviewing(t.jobs[id].attempt, approve, sha256))
    case ReviewEnds(notes, event) =>
      && id in p.ops && p.ops[id].Reviewing?
      && var op := p.ops[id];
         var patch := KEEP.(state := Some(if op.approve then Approved else Rejected),
                            review := Some(Some(Review(op.sha256, op.approve, notes, at))));
         c' == WithoutOp(c.(t := Attempted(t, id, {AwaitingReview}, op.attempt, patch, Some(event), at)), id)
    case PrepareBegins(terms) =>
      && Idle(p, id) && IsReviewed(t, id, terms.artifactSha256) && Preparable(t.jobs[id])
      && c' == WithOp(c, id, Freezing(t.jobs[id].attempt, terms))
    case PrepareSends(event) =>
      && id in p.ops && p.ops[id].Freezing?
      && var op := p.ops[id];
         var frozen := Transition(t, id, {Approved}, op.attempt, KEEP.(terms := Some(Some(op.terms))), Some(event), at);
         && frozen.Some? && t.jobs[id].artifact.Some?
         && c' == WithOp(c.(t := frozen.value, sent := c.sent + {PrepareRequest(id, op.terms, t.jobs[id].artifact.value)}),
                         id, AwaitingPrepare(op.attempt, op.terms))
    case PublishBegins(sha256, maxDebit) =>
      && Idle(p, id) && IsReviewed(t, id, sha256) && t.jobs[id].publication.Some?
      && var view := t.jobs[id].publication.value;
         && view.terms.artifactSha256 == sha256 && (view.state == P.Prepared || view.state == P.Failed)
         && c' == WithOp(c, id, CheckingPublish(t.jobs[id].attempt, view, sha256, maxDebit))
    case PublishSends(event) =>
      && id in p.ops && p.ops[id].CheckingPublish?
      && var op := p.ops[id];
         var marking := KEEP.(publication := Some(Some(op.view.(state := P.Publishing, error := None))), error := Some(None));
         var marked := Transition(t, id, {Approved}, op.attempt, marking, Some(event), at);
         && marked.Some?
         && c' == WithOp(c.(t := marked.value, sent := c.sent + {PublishRequest(id, op.sha256, op.maxDebit)}),
                         id, AwaitingPublish(op.attempt, op.view))
    case RefreshBegins =>
      && Idle(p, id) && id in t.jobs && t.jobs[id].state == Approved
      && (t.jobs[id].publication.Some? || t.jobs[id].terms.Some?)
      && var terms := if t.jobs[id].publication.Some? then t.jobs[id].publication.value.terms else t.jobs[id].terms.value;
         c' == WithOp(c, id, Refreshing(t.jobs[id].attempt, terms))
    case Replies(view, error, event) =>
      && id in p.ops && ReplyTerms(p.ops[id]) == Some(view.terms) && view.state != P.Preparing
      && var patch := KEEP.(publication := Some(Some(view)), error := Some(error));
         c' == WithoutOp(c.(t := Attempted(t, id, {Approved}, p.ops[id].attempt, patch, Some(event), at)), id)
    case PrepareFails(reason, event) =>
      && id in p.ops && p.ops[id].AwaitingPrepare?
      && c' == WithoutOp(c.(t := Attempted(t, id, {Approved}, p.ops[id].attempt, KEEP.(error := Some(Some(reason))), Some(event), at)), id)
    case OpEnds => c' == WithoutOp(c, id)
  }

  // ----- Restart, start and shutdown -----

  /** Restart recovery of one job: builds end, and a publish in flight has an unknown outcome. */
  function RecoveredJob(job: Job, at: Time): Job {
    if job.state in RUNNING then
      Patched(job, KEEP.(state := Some(Interrupted), pause := Some(None), error := Some(Some(0))), at)
    else if job.state == Approved && job.publication.Some? && job.publication.value.state == P.Publishing then
      Patched(job, KEEP.(publication := Some(Some(job.publication.value.(state := P.ConfirmationPending, error := Some(0))))), at)
    else job
  }

  /** The same row apart from the event counter. */
  predicate SameRow(a: Job, b: Job) {
    b == a.(lastSeq := b.lastSeq)
  }

  /** The jobs of `done` are recovered, one transition each; the others are as they were. */
  ghost predicate RecoveredTables(t: Tables, t': Tables, done: set<JobId>, at: Time) {
    && t'.jobs.Keys == t.jobs.Keys
    && forall id :: id in t.jobs ==> SameRow(if id in done then RecoveredJob(t.jobs[id], at) else t.jobs[id], t'.jobs[id])
  }

  /** Clears the markers of the handed builder calls, as start does one by one. */
  function ClearHanded(t: Tables, handed: set<(JobId, nat)>): Tables {
    t.(jobs := map id | id in t.jobs ::
      if t.jobs[id].builderAttempt.Some? && (id, t.jobs[id].builderAttempt.value) in handed
      then t.jobs[id].(builderAttempt := None) else t.jobs[id])
  }

  ghost predicate ProcessStep(c: Control, m: ProcessMove, at: Time, c': Control) {
    match m
    case Boots =>
      && c.process.None? && RecoveredTables(c.t, c'.t, c.t.jobs.Keys, at)
      && c' == c.(t := c'.t, process := Some(FRESH))
    case BootStops(done) => c.process.None? && RecoveredTables(c.t, c'.t, done, at) && c' == c.(t := c'.t)
    case StartReads =>
      && c.process.Some? && !c.process.value.tried
      && var p, unsettled := c.process.value, Unsettled(c.t.jobs);
         c' == if unsettled == {} then c.(process := Some(p.(tried := true, started := true)))
               else c.(process := Some(p.(tried := true, handing := Some(unsettled))), handed := c.handed + [unsettled])
    case StartClears =>
      && c.process.Some? && c.process.value.handing.Some?
      && var p := c.process.value;
         c' == c.(t := ClearHanded(c.t, p.handing.value), settled := c.settled + p.handing.value,
                  process := Some(p.(handing := None, started := true)))
    case StartRejects =>
      && c.process.Some? && c.process.value.handing.Some?
      && c' == c.(process := Some(c.process.value.(handing := None)))
    case Closes =>
      && c.process.Some?
      && var p := c.process.value;
         c' == c.(process := Some(p.(closed := true,
                    active := if p.active.Some? then Some(Stopped(p.active.value, ShutdownStop)) else None)))
    case Stops => c' == c.(process := None)
  }

  ghost predicate Next(c: Control, step: Step, c': Control) {
    match step
    case Build(id, b, at) => c.process.Some? && BuildStep(c, id, b, at, c')
    case Publication(id, p, at) => c.process.Some? && PublicationStep(c, id, p, at, c')
    case OfProcess(m, at) => ProcessStep(c, m, at, c')
  }

  ghost predicate Initial(c: Control) {
    && c.t == Tables(map[], map[]) && c.process.None? && c.sent == {} && c.begun == [] && c.settled == {} && c.handed == []
  }
}

/**
 The control service's durable job table and event log. Every change of a job is
 guarded by the states and the attempt it was decided for; only the newest
 events of a job are kept. Each operation is first a function of the stored
 tables and then a method of the store object.
 */
module ControlStore {
  import opened Prelude
  import P = PublisherTables

  type JobId = nat
  type Time = int
  type Text = nat

  datatype State =
    | Submitted | Queued | Building | Verifying | AwaitingReview
    | Approved | Rejected | Failed | Interrupted | Cancelled

  datatype Pause = Pause(since: Time, checkedAt: Time, message: Text)

  datatype Review = Review(artifactSha256: nat, attested: bool, notes: Text, reviewedAt: Time)

  /** The publisher's record of this job as the control service stored it. */
  datatype PublicationView = PublicationView(state: P.Phase, terms: P.Terms, tx: Option<nat>, error: Option<Text>)

  datatype Job = Job(
    row: nat, createdAt: Time, updatedAt: Time, state: State, attempt: nat, pause: Option<Pause>,
    artifact: Option<P.Artifact>, archivePath: Option<Text>, filesDir: Option<Text>, review: Option<Review>,
    terms: Option<P.Terms>, publication: Option<PublicationView>, error: Option<Text>,
    queuedAt: Option<Time>, builderAttempt: Option<nat>, lastSeq: nat)

  datatype EventInput = EventInput(phase: Text, message: Text)

  datatype Event = Event(number: nat, at: Time, phase: Text, message: Text)

  datatype EventKey = EventKey(job: JobId, number: nat)

  datatype Tables = Tables(jobs: map<JobId, Job>, events: map<EventKey, Event>)

  /** What a transition writes; None leaves the column alone, Some(None) clears it. */
  datatype Patch = Patch(
    state: Option<State>, attempt: Option<nat>, pause: Option<Option<Pause>>, artifact: Option<Option<P.Artifact>>,
    archivePath: Option<Option<Text>>, filesDir: Option<Option<Text>>, review: Option<Option<Review>>,
    publication: Option<Option<PublicationView>>, terms: Option<Option<P.Terms>>, error: Option<Option<Text>>,
    queuedAt: Option<Option<Time>>, builderAttempt: Option<Option<nat>>)

  const KEEP := Patch(None, None, None, None, None, None, None, None, None, None, None, None)

  const MAX_EVENTS_PER_JOB: nat := 1000

  // ----- The event log -----

  /** Numbers and stores the event, and forgets the one that falls out of the last MAX_EVENTS_PER_JOB. */
  function InsertEvent(t: Tables, id: JobId, input: EventInput, at: Time): Tables
    requires id in t.jobs
  {
    var n := t.jobs[id].lastSeq + 1;
    var stored := t.events[EventKey(id, n) := Event(n, at, input.phase, input.message)];
    Tables(t.jobs[id := t.jobs[id].(lastSeq := n)],
           map k | k in stored && !(k.job == id && k.number + MAX_EVENTS_PER_JOB <= n) :: stored[k])
  }

  /** The stored events of a job from sequence number `from` up to `last`, in order, at most `limit`. */
  function Scan(events: map<EventKey, Event>, id: JobId, from: nat, last: nat, limit: nat): seq<Event>
    decreases last + 1 - from
  {
    if from > last || limit == 0 then []
    else if EventKey(id, from) in events then [events[EventKey(id, from)]] + Scan(events, id, from + 1, last, limit - 1)
    else Scan(events, id, from + 1, last, limit)
  }

  /** The events after `after`, oldest first, at most `limit`. */
  function Events(t: Tables, id: JobId, after: nat, limit: nat): seq<Event>
    requires id in t.jobs
  {
    Scan(t.events, id, after + 1, t.jobs[id].lastSeq, limit)
  }

  // ----- Guarded transitions -----

  function OrKeep<T>(column: T, patched: Option<T>): T {
    if patched.Some? then patched.value else column
  }

  function Patched(job: Job, p: Patch, now: Time): Job {
    job.(updatedAt := now, state := OrKeep(job.state, p.state), attempt := OrKeep(job.attempt, p.attempt),
         pause := OrKeep(job.pause, p.pause), artifact := OrKeep(job.artifact, p.artifact),
         archivePath := OrKeep(job.archivePath, p.archivePath), filesDir := OrKeep(job.filesDir, p.filesDir),
         review := OrKeep(job.review, p.review), publication := OrKeep(job.publication, p.publication),
         terms := OrKeep(job.terms, p.terms), error := OrKeep(job.error, p.error),
         queuedAt := OrKeep(job.queuedAt, p.queuedAt), builderAttempt := OrKeep(job.builderAttempt, p.builderAttempt))
  }

  predicate Guarded(t: Tables, id: JobId, states: set<State>, attempt: nat) {
    id in t.jobs && t.jobs[id].attempt == attempt && t.jobs[id].state in states
  }

  /** Applies the patch and appends the event in one transaction, or finds that another transition won. */
  function Transition(t: Tables, id: JobId, states: set<State>, attempt: nat, p: Patch, event: Option<EventInput>, now: Time)
    : Option<Tables>
  {
    if !Guarded(t, id, states, attempt) then None
    else
      var patched := t.(jobs := t.jobs[id := Patched(t.jobs[id], p, now)]);
      Some(if event.Some? then InsertEvent(patched, id, event.value, now) else patched)
  }

  function Create(t: Tables, id: JobId, row: nat, event: EventInput, now: Time): Tables {
    var job := Job(row, now, now, Queued, 1, None, None, None, None, None, None, None, None, Some(now), None, 0);
    InsertEvent(t.(jobs := t.jobs[id := job]), id, event, now)
  }

  /** The marker of a builder call goes only when the same attempt settles. */
  function BuilderSettled(t: Tables, id: JobId, attempt: nat): Tables {
    if id in t.jobs && t.jobs[id].builderAttempt == Some(attempt)
    then t.(jobs := t.jobs[id := t.jobs[id].(builderAttempt := None)]) else t
  }

  // ----- The queue -----

  /** A queue entry without a time sorts first, as a NULL column does. */
  predicate QueuedBefore(a: Job, b: Job) {
    if a.queuedAt == b.queuedAt then a.row < b.row
    else a.queuedAt.None? || (b.queuedAt.Some? && a.queuedAt.value < b.queuedAt.value)
  }

  predicate InQueue(jobs: map<JobId, Job>, id: JobId) {
    id in jobs && jobs[id].state == Queued
  }

  /** Row numbers are unique. */
  ghost predicate RowsDistinct(jobs: map<JobId, Job>) {
    forall a, b :: a in jobs && b in jobs && a != b ==> jobs[a].row != jobs[b].row
  }

  predicate Older(jobs: map<JobId, Job>, a: JobId, b: JobId) {
    a in jobs && b in jobs && QueuedBefore(jobs[a], jobs[b])
  }

  ghost predicate FirstOf(jobs: map<JobId, Job>, ids: set<JobId>, m: JobId) {
    m in ids && forall other :: other in ids && other != m ==> Older(jobs, m, other)
  }

  ghost predicate IsOldest(jobs: map<JobId, Job>, id: JobId) {
    InQueue(jobs, id) && forall other :: InQueue(jobs, other) && other != id ==> Older(jobs, id, other)
  }

  /** The result of the query for the oldest queued build. */
  ghost predicate IsNext(jobs: map<JobId, Job>, next: Option<JobId>) {
    if next.Some? then IsOldest(jobs, next.value) else forall id :: !InQueue(jobs, id)
  }

  lemma {:induction false} HasFirst(jobs: map<JobId, Job>, ids: set<JobId>)
    requires RowsDistinct(jobs) && ids != {} && ids <= jobs.Keys
    ensures exists m :: FirstOf(jobs, ids, m)
  {
    var m :| m in ids;
    var rest := ids - {m};
    assert ids == rest + {m};
    if rest == {} {
      assert FirstOf(jobs, ids, m);
    } else {
      HasFirst(jobs, rest);
      var n :| FirstOf(jobs, rest, n);
      var first := if Older(jobs, m, n) then m else n;
      forall other | other in ids && other != first ensures Older(jobs, first, other) {
        assert other in rest && other != n ==> Older(jobs, n, other);
      }
      assert FirstOf(jobs, ids, first);
    }
  }

  /**
   The query always has exactly one answer: the queued job with the least queuing
   time, one without a time first, and among equal times the least row.
   */
  lemma NextIsDetermined(jobs: map<JobId, Job>)
    requires RowsDistinct(jobs)
    ensures exists next :: IsNext(jobs, next)
    ensures forall a, b :: IsNext(jobs, a) && IsNext(jobs, b) ==> a == b
    ensures IsNext(jobs, None) <==> forall id :: id in jobs ==> jobs[id].state != Queued
    ensures forall id, other :: IsNext(jobs, Some(id)) && other in jobs && jobs[other].state == Queued && other != id ==>
      && id in jobs && jobs[id].state == Queued
      && var first, later := jobs[id].queuedAt, jobs[other].queuedAt;
         || (first.None? && later.Some?)
         || (first.Some? && later.Some? && first.value < later.value)
         || (first == later && jobs[id].row < jobs[other].row)
  {
    var queued := set id | id in jobs && InQueue(jobs, id);
    if queued == {} {
      forall id ensures !InQueue(jobs, id) {
        assert InQueue(jobs, id) ==> id in queued;
      }
      assert IsNext(jobs, None);
    } else {
      HasFirst(jobs, queued);
      var m :| FirstOf(jobs, queued, m);
      assert IsNext(jobs, Some(m));
    }
    assert forall id :: id in jobs ==> (InQueue(jobs, id) <==> jobs[id].state == Queued);
  }

  /** Each job with the attempt that its marker names. */
  function Unsettled(jobs: map<JobId, Job>): set<(JobId, nat)> {
    set id | id in jobs && jobs[id].builderAttempt.Some? :: (id, jobs[id].builderAttempt.value)
  }
}

/**
 The two loops that run when the control service comes up: restart recovery of
 jobs, and the clearing of builder markers after the builder released the
 resources of interrupted calls. Each is proved to be the single change that the
 step system takes it for.
 */
module ControlRestart {
  import opened Prelude
  import opened ControlStore
  import opened ControlService
  import D = ControlDatabase
  import P = PublisherTables

  function JobsIn(jobs: map<JobId, Job>, states: set<State>): set<JobId> {
    set id | id in jobs && jobs[id].state in states
  }

  const INTERRUPTED := EventInput(0, 0)
  const UNKNOWN_OUTCOME := EventInput(0, 0)

  /** While the loops run, every job outside `todo` is recovered and every other one is as it was. */
  ghost predicate RecoveredSoFar(was: Tables, now: Tables, todo: set<JobId>, at: Time) {
    RecoveredTables(was, now, was.jobs.Keys - todo, at)
  }

  /** One transition recovers one job. */
  lemma TransitionRecovers(was: Tables, now: Tables, todo: set<JobId>, id: JobId, states: set<State>, patch: Patch, event: EventInput, at: Time)
    requires RecoveredSoFar(was, now, todo, at) && id in todo && id in was.jobs
    requires was.jobs[id].state in states
    requires forall n: nat :: Patched(was.jobs[id].(lastSeq := n), patch, at) == RecoveredJob(was.jobs[id], at).(lastSeq := n)
    ensures Transition(now, id, states, was.jobs[id].attempt, patch, Some(event), at).Some?
    ensures RecoveredSoFar(was, Transition(now, id, states, was.jobs[id].attempt, patch, Some(event), at).value, todo - {id}, at)
  {
    assert SameRow(was.jobs[id], now.jobs[id]);
    var now' := Transition(now, id, states, was.jobs[id].attempt, patch, Some(event), at).value;
    var patched := Patched(was.jobs[id].(lastSeq := now.jobs[id].lastSeq), patch, at);
    assert SameRow(patched, now'.jobs[id]);
    forall other | other in was.jobs
      ensures SameRow(if other in was.jobs.Keys - (todo - {id}) then RecoveredJob(was.jobs[other], at) else was.jobs[other], now'.jobs[other])
    {
      if other != id {
        assert now'.jobs[other] == now.jobs[other];
      }
    }
  }

  const BUILD_ENDS := KEEP.(state := Some(Interrupted), pause := Some(None), error := Some(Some(0)))

  function OutcomeUnknown(view: PublicationView): Patch {
    KEEP.(publication := Some(Some(view.(state := P.ConfirmationPending, error := Some(0)))))
  }

  predicate InFlight(job: Job) {
    job.publication.Some? && job.publication.value.state == P.Publishing
  }

  /** A job that no loop has visited is as it was. */
  lemma UnvisitedIsSame(was: Tables, now: Tables, todo: set<JobId>, id: JobId, at: Time)
    requires RecoveredSoFar(was, now, todo, at) && id in todo && id in was.jobs
    ensures id in now.jobs && SameRow(was.jobs[id], now.jobs[id])
  {
  }

  lemma BuildTransitionRecovers(was: Tables, now: Tables, todo: set<JobId>, id: JobId, at: Time)
    requires RecoveredSoFar(was, now, todo, at) && id in todo && id in was.jobs && was.jobs[id].state in RUNNING
    ensures id in now.jobs && now.jobs[id].attempt == was.jobs[id].attempt && now.jobs[id].state == was.jobs[id].state
    ensures Transition(now, id, {was.jobs[id].state}, was.jobs[id].attempt, BUILD_ENDS, Some(INTERRUPTED), at).Some?
    ensures RecoveredSoFar(was, Transition(now, id, {was.jobs[id].state}, was.jobs[id].attempt, BUILD_ENDS, Some(INTERRUPTED), at).value,
                           todo - {id}, at)
  {
    UnvisitedIsSame(was, now, todo, id, at);
    TransitionRecovers(was, now, todo, id, {was.jobs[id].state}, BUILD_ENDS, INTERRUPTED, at);
  }

  /** An approved job is recovered by one transition if its publish is in flight, and by nothing otherwise. */
  lemma ApprovedRecovers(was: Tables, now: Tables, todo: set<JobId>, id: JobId, at: Time)
    requires RecoveredSoFar(was, now, todo, at) && id in todo && id in was.jobs && was.jobs[id].state == Approved
    ensures id in now.jobs && now.jobs[id].attempt == was.jobs[id].attempt && now.jobs[id].publication == was.jobs[id].publication
    ensures if InFlight(was.jobs[id]) then
        var patch := OutcomeUnknown(was.jobs[id].publication.value);
        && Transition(now, id, {Approved}, was.jobs[id].attempt, patch, Some(UNKNOWN_OUTCOME), at).Some?
        && RecoveredSoFar(was, Transition(now, id, {Approved}, was.jobs[id].attempt, patch, Some(UNKNOWN_OUTCOME), at).value, todo - {id}, at)
      else RecoveredSoFar(was, now, todo - {id}, at)
  {
    UnvisitedIsSame(was, now, todo, id, at);
    if InFlight(was.jobs[id]) {
      TransitionRecovers(was, now, todo, id, {Approved}, OutcomeUnknown(was.jobs[id].publication.value), UNKNOWN_OUTCOME, at);
    }
  }

  lemma WithoutOne(was: Tables, rest: set<JobId>, approved: set<JobId>, id: JobId)
    requires id in rest && id in was.jobs && was.jobs[id].state in RUNNING && approved == JobsIn(was.jobs, {Approved})
    ensures rest - {id} + approved == rest + approved - {id}
  {
  }

  /** The loop over running builds. */
  method EndBuilds(store: D.PaperControlStore, ghost was: Tables, ghost approved: set<JobId>, at: Time)
    requires store.Valid() && store.Stored() == was && approved == JobsIn(was.jobs, {Approved})
    modifies store
    ensures store.Valid() && store.rows == old(store.rows) && RecoveredSoFar(was, store.Stored(), approved, at)
  {
    hide RecoveredSoFar, BUILD_ENDS, Transition, RecoveredJob;
    var rest := JobsIn(store.jobs, RUNNING);
    RecoverNothing(was, at);
    while rest != {}
      invariant store.Valid() && store.rows == old(store.rows)
      invariant forall id :: id in rest ==> id in was.jobs && was.jobs[id].state in RUNNING
      invariant RecoveredSoFar(was, store.Stored(), rest + approved, at)
      decreases |rest|
    {
      var id :| id in rest;
      BuildTransitionRecovers(was, store.Stored(), rest + approved, id, at);
      WithoutOne(was, rest, approved, id);
      var _ := store.Transition(id, {store.jobs[id].state}, store.jobs[id].attempt, BUILD_ENDS, Some(INTERRUPTED), at);
      rest := rest - {id};
    }
    assert {} + approved == approved;
  }

  /** The loop over approved jobs. */
  method EndPublishes(store: D.PaperControlStore, ghost was: Tables, ghost approved: set<JobId>, at: Time)
    requires store.Valid() && RecoveredSoFar(was, store.Stored(), approved, at) && approved == JobsIn(was.jobs, {Approved})
    modifies store
    ensures store.Valid() && store.rows == old(store.rows) && RecoveredSoFar(was, store.Stored(), {}, at)
  {
    hide RecoveredSoFar, OutcomeUnknown, Transition, RecoveredJob;
    ApprovedAreTheSame(was, store.Stored(), approved, at);
    var rest := JobsIn(store.jobs, {Approved});
    while rest != {}
      invariant store.Valid() && store.rows == old(store.rows)
      invariant forall id :: id in rest ==> id in was.jobs && was.jobs[id].state == Approved
      invariant RecoveredSoFar(was, store.Stored(), rest, at)
      decreases |rest|
    {
      var id :| id in rest;
      ApprovedRecovers(was, store.Stored(), rest, id, at);
      if InFlight(store.jobs[id]) {
        var _ := store.Transition(id, {Approved}, store.jobs[id].attempt, OutcomeUnknown(store.jobs[id].publication.value), Some(UNKNOWN_OUTCOME), at);
      }
      rest := rest - {id};
    }
  }

  /** Restart recovery: builds end as interrupted, and a publish in flight has an unknown outcome. */
  method Recover(store: D.PaperControlStore, at: Time)
    requires store.Valid()
    modifies store
    ensures store.Valid() && store.rows == old(store.rows)
    ensures RecoveredTables(old(store.Stored()), store.Stored(), old(store.jobs.Keys), at)
  {
    hide RecoveredTables;
    ghost var was := store.Stored();
    ghost var approved := JobsIn(was.jobs, {Approved});
    EndBuilds(store, was, approved, at);
    EndPublishes(store, was, approved, at);
    assert was.jobs.Keys - {} == was.jobs.Keys;
  }

  /** Jobs that are neither building nor approved need no recovery. */
  lemma RecoverNothing(was: Tables, at: Time)
    ensures RecoveredSoFar(was, was, JobsIn(was.jobs, RUNNING) + JobsIn(was.jobs, {Approved}), at)
  {
  }

  /** Ending the builds makes no job approved and none unapproved. */
  lemma ApprovedAreTheSame(was: Tables, now: Tables, approved: set<JobId>, at: Time)
    requires RecoveredSoFar(was, now, approved, at) && approved == JobsIn(was.jobs, {Approved})
    ensures JobsIn(now.jobs, {Approved}) == approved
  {
    forall id | id in was.jobs ensures now.jobs[id].state == Approved <==> was.jobs[id].state == Approved {
      if id in approved { assert SameRow(was.jobs[id], now.jobs[id]); }
      else { assert SameRow(RecoveredJob(was.jobs[id], at), now.jobs[id]); }
    }
  }

  /** After the builder released the handed calls, their markers are cleared one by one. */
  method ClearMarkers(store: D.PaperControlStore, handed: set<(JobId, nat)>)
    requires store.Valid()
    modifies store
    ensures store.Valid() && store.rows == old(store.rows)
    ensures store.Stored() == ClearHanded(old(store.Stored()), handed)
  {
    hide ClearHanded, BuilderSettled;
    ghost var was := store.Stored();
    var rest := handed;
    ClearNone(was);
    assert handed - rest == {};
    while rest != {}
      invariant store.Valid() && store.rows == old(store.rows)
      invariant rest <= handed
      invariant store.Stored() == ClearHanded(was, handed - rest)
      decreases |rest|
    {
      var call :| call in rest;
      ClearOneMore(was, handed - rest, call);
      assert handed - (rest - {call}) == handed - rest + {call};
      store.BuilderSettled(call.0, call.1);
      rest := rest - {call};
    }
    assert handed - {} == handed;
  }

  lemma ClearNone(was: Tables)
    ensures ClearHanded(was, {}) == was
  {
    assert ClearHanded(was, {}).jobs == was.jobs;
  }

  lemma ClearOneMore(was: Tables, cleared: set<(JobId, nat)>, call: (JobId, nat))
    ensures BuilderSettled(ClearHanded(was, cleared), call.0, call.1) == ClearHanded(was, cleared + {call})
  {
    var now := BuilderSettled(ClearHanded(was, cleared), call.0, call.1);
    var expected := ClearHanded(was, cleared + {call});
    assert now.jobs.Keys == expected.jobs.Keys;
    forall id | id in was.jobs ensures now.jobs[id] == expected.jobs[id] {
      if was.jobs[id].builderAttempt.Some? {
        assert (id, was.jobs[id].builderAttempt.value) == call <==> id == call.0 && was.jobs[id].builderAttempt.value == call.1;
      }
    }
    assert now.jobs == expected.jobs;
  }
}

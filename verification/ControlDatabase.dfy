/**
 The control store object: the tables as fields that each operation updates
 statement by statement inside one transaction.
 */
module ControlDatabase {
  import opened Prelude
  import opened ControlStore
  import S = ControlStore

  class PaperControlStore {
    var jobs: map<JobId, Job>
    var events: map<EventKey, Event>
    var rows: nat

    function Stored(): Tables
      reads this
    {
      Tables(jobs, events)
    }

    /** Row numbers below `rows` have been given out, each once; events belong to stored jobs. */
    ghost predicate Valid()
      reads this
    {
      RowsDistinct(jobs) && forall id :: id in jobs ==> jobs[id].row < rows
    }

    constructor ()
      ensures Valid() && Stored() == Tables(map[], map[])
    {
      jobs, events, rows := map[], map[], 0;
    }

    method InsertEvent(id: JobId, input: EventInput, at: Time) returns (stored: Event)
      requires Valid() && id in jobs
      modifies this
      ensures Valid() && rows == old(rows)
      ensures Stored() == S.InsertEvent(old(Stored()), id, input, at)
      ensures stored == Event(old(jobs)[id].lastSeq + 1, at, input.phase, input.message)
    {
      var n := jobs[id].lastSeq + 1;
      jobs := jobs[id := jobs[id].(lastSeq := n)];
      stored := Event(n, at, input.phase, input.message);
      events := events[EventKey(id, n) := stored];
      events := map k | k in events && !(k.job == id && k.number + MAX_EVENTS_PER_JOB <= n) :: events[k];
    }

    method Create(id: JobId, event: EventInput, now: Time)
      requires Valid() && id !in jobs
      modifies this
      ensures Valid() && id in jobs
      ensures Stored() == S.Create(old(Stored()), id, old(rows), event, now)
    {
      jobs := jobs[id := Job(rows, now, now, Queued, 1, None, None, None, None, None, None, None, None, Some(now), None, 0)];
      rows := rows + 1;
      var _ := InsertEvent(id, event, now);
    }

    method Transition(id: JobId, states: set<State>, attempt: nat, p: Patch, event: Option<EventInput>, now: Time)
      returns (won: bool)
      requires Valid()
      modifies this
      ensures Valid() && rows == old(rows)
      ensures var done := S.Transition(old(Stored()), id, states, attempt, p, event, now);
        won == done.Some? && Stored() == (if done.Some? then done.value else old(Stored()))
    {
      if id !in jobs || jobs[id].attempt != attempt || jobs[id].state !in states {
        return false;
      }
      jobs := jobs[id := Patched(jobs[id], p, now)];
      if event.Some? {
        var _ := InsertEvent(id, event.value, now);
      }
      return true;
    }

    method BuilderSettled(id: JobId, attempt: nat)
      requires Valid()
      modifies this
      ensures Valid() && rows == old(rows)
      ensures Stored() == S.BuilderSettled(old(Stored()), id, attempt)
    {
      if id in jobs && jobs[id].builderAttempt == Some(attempt) {
        jobs := jobs[id := jobs[id].(builderAttempt := None)];
      }
    }
  }
}

/**
 The bounded event log of a job and a reader that follows it by cursor. Only the
 last MAX_EVENTS_PER_JOB events stay stored; a reader that asks for the events
 after its cursor, a page at a time, misses none exactly while it is never more
 than that many events behind.
 */
module ControlEvents {
  import opened Prelude
  import opened ControlStore

  const MAX_EVENTS_PER_PAGE: nat := 100

  /** The place in the whole history of a job from which its events are still stored. */
  function Dropped(all: seq<Event>): nat {
    if |all| > 1000 then |all| - 1000 else 0
  }

  /** `all` is every event ever recorded for the job; the last ones, and only they, are stored. */
  ghost predicate LogOk(t: Tables, id: JobId, all: seq<Event>) {
    && id in t.jobs && t.jobs[id].lastSeq == |all|
    && (forall i :: 0 <= i < |all| ==> all[i].number == i + 1)
    && (forall n: nat :: EventKey(id, n) in t.events <==> Dropped(all) < n <= |all|)
    && (forall n: nat :: Dropped(all) < n <= |all| ==> t.events[EventKey(id, n)] == all[n - 1])
  }

  /** The event that an insert for job `id` records. */
  function NextEvent(all: seq<Event>, input: EventInput, at: Time): Event {
    Event(|all| + 1, at, input.phase, input.message)
  }

  lemma InsertKeepsLog(t: Tables, id: JobId, input: EventInput, at: Time, all: seq<Event>)
    requires LogOk(t, id, all)
    ensures LogOk(InsertEvent(t, id, input, at), id, all + [NextEvent(all, input, at)])
  {
  }

  lemma OtherInsertKeepsLog(t: Tables, id: JobId, other: JobId, input: EventInput, at: Time, all: seq<Event>)
    requires LogOk(t, id, all) && other in t.jobs && other != id
    ensures LogOk(InsertEvent(t, other, input, at), id, all)
  {
  }

  /** The log of a new job holds its first event, so a reader can follow it from the start. */
  lemma CreateStartsLog(t: Tables, id: JobId, row: nat, event: EventInput, now: Time)
    requires id !in t.jobs && forall n: nat :: EventKey(id, n) !in t.events
    ensures LogOk(Create(t, id, row, event, now), id, [NextEvent([], event, now)])
  {
  }

  /** A transition records at most its one event, and a refused one records nothing. */
  lemma TransitionKeepsLog(t: Tables, id: JobId, job: JobId, states: set<State>, attempt: nat, p: Patch,
                           event: Option<EventInput>, now: Time, all: seq<Event>)
    requires LogOk(t, id, all) && Transition(t, job, states, attempt, p, event, now).Some?
    ensures LogOk(Transition(t, job, states, attempt, p, event, now).value, id,
                  if job == id && event.Some? then all + [NextEvent(all, event.value, now)] else all)
  {
    var patched := t.(jobs := t.jobs[job := Patched(t.jobs[job], p, now)]);
    assert LogOk(patched, id, all);
    if event.Some? {
      if job == id { InsertKeepsLog(patched, id, event.value, now, all); }
      else { OtherInsertKeepsLog(patched, id, job, event.value, now, all); }
    }
  }

  // ----- A page is a slice of the history -----

  /** Where a page that starts after `after` begins in the whole history. */
  function PageStart(all: seq<Event>, after: nat): nat {
    var from := if after < Dropped(all) then Dropped(all) else after;
    if from < |all| then from else |all|
  }

  function PageEnd(all: seq<Event>, after: nat, limit: nat): nat {
    var start := PageStart(all, after);
    if start + limit < |all| then start + limit else |all|
  }

  lemma {:induction false} ScanIsSlice(t: Tables, id: JobId, all: seq<Event>, after: nat, limit: nat)
    requires LogOk(t, id, all)
    ensures Scan(t.events, id, after + 1, |all|, limit) == all[PageStart(all, after)..PageEnd(all, after, limit)]
    decreases |all| - after
  {
    if after < |all| && limit > 0 {
      if Dropped(all) < after + 1 {
        ScanIsSlice(t, id, all, after + 1, limit - 1);
        assert all[after..PageEnd(all, after, limit)] == [all[after]] + all[after + 1..PageEnd(all, after, limit)];
      } else {
        ScanIsSlice(t, id, all, after + 1, limit);
      }
    }
  }

  /** A page holds the stored events after the cursor, oldest first, without a gap inside. */
  lemma PageIsSlice(t: Tables, id: JobId, all: seq<Event>, after: nat, limit: nat)
    requires LogOk(t, id, all)
    ensures Events(t, id, after, limit) == all[PageStart(all, after)..PageEnd(all, after, limit)]
  {
    ScanIsSlice(t, id, all, after, limit);
  }

  // ----- A reader that follows next_seq -----

  function NextSeq(page: seq<Event>, cursor: nat): nat {
    if page != [] then page[|page| - 1].number else cursor
  }

  /** A job's event is recorded, or the reader asks for its next page. */
  datatype Action = Append(job: JobId, input: EventInput, at: Time) | Read

  /** The tables, the history of the followed job, the reader's cursor and what it has seen. */
  datatype Follower = Follower(t: Tables, all: seq<Event>, cursor: nat, seen: seq<Event>)

  predicate CanAct(f: Follower, a: Action) {
    a.Append? ==> a.job in f.t.jobs
  }

  function Act(f: Follower, id: JobId, a: Action): Follower
    requires CanAct(f, a) && id in f.t.jobs
  {
    match a
    case Append(job, input, at) =>
      f.(t := InsertEvent(f.t, job, input, at), all := if job == id then f.all + [NextEvent(f.all, input, at)] else f.all)
    case Read =>
      var page := Events(f.t, id, f.cursor, MAX_EVENTS_PER_PAGE);
      f.(cursor := NextSeq(page, f.cursor), seen := f.seen + page)
  }

  /** Every read comes while at most MAX_EVENTS_PER_JOB events lie beyond the cursor. */
  ghost predicate InTime(run: seq<Follower>, actions: seq<Action>)
    requires |run| == |actions| + 1
  {
    forall i :: 0 <= i < |actions| && actions[i].Read? ==> |run[i].all| <= run[i].cursor + 1000
  }

  ghost predicate Acted(f: Follower, id: JobId, a: Action, f': Follower) {
    CanAct(f, a) && id in f.t.jobs && f' == Act(f, id, a)
  }

  /** The reader starts at the beginning of a job's log and everything after that is an action. */
  ghost predicate FollowRun(run: seq<Follower>, id: JobId, actions: seq<Action>) {
    && |run| == |actions| + 1
    && LogOk(run[0].t, id, run[0].all) && run[0].cursor == 0 && run[0].seen == []
    && forall i :: 0 <= i < |actions| ==> Acted(run[i], id, actions[i], run[i + 1])
  }

  lemma ActKeepsLog(f: Follower, id: JobId, a: Action)
    requires LogOk(f.t, id, f.all) && f.cursor <= |f.all| && CanAct(f, a)
    ensures var f' := Act(f, id, a); LogOk(f'.t, id, f'.all) && f'.cursor <= |f'.all|
  {
    match a
    case Append(job, input, at) =>
      if job == id { InsertKeepsLog(f.t, id, input, at, f.all); } else { OtherInsertKeepsLog(f.t, id, job, input, at, f.all); }
    case Read => PageIsSlice(f.t, id, f.all, f.cursor, MAX_EVENTS_PER_PAGE);
  }

  /** A read in time continues exactly where the reader was; a late read skips events for good. */
  lemma ReadContinuesExactly(f: Follower, id: JobId)
    requires LogOk(f.t, id, f.all) && f.cursor <= |f.all|
    ensures Act(f, id, Read).all == f.all
    ensures var f' := Act(f, id, Read);
      if |f.all| <= f.cursor + MAX_EVENTS_PER_JOB
      then f.cursor <= f'.cursor <= |f.all| && f'.seen == f.seen + f.all[f.cursor..f'.cursor]
      else |f'.seen| - f'.cursor < |f.seen| - f.cursor
  {
    PageIsSlice(f.t, id, f.all, f.cursor, MAX_EVENTS_PER_PAGE);
  }

  /** The reader has seen every event up to its cursor, in order and once. */
  predicate SeenAll(f: Follower) {
    f.cursor <= |f.all| && f.seen == f.all[..f.cursor]
  }

  lemma {:induction false} FollowSoFar(run: seq<Follower>, id: JobId, actions: seq<Action>, n: nat)
    requires FollowRun(run, id, actions) && n <= |actions|
    ensures LogOk(run[n].t, id, run[n].all) && run[n].cursor <= |run[n].all| && |run[n].seen| <= run[n].cursor
    ensures SeenAll(run[n]) <==> InTime(run[..n + 1], actions[..n])
    ensures |run[n].seen| == run[n].cursor <==> SeenAll(run[n])
  {
    hide LogOk, Act, CanAct, InTime;
    if n == 0 {
      assert InTime(run[..1], actions[..0]) by { NothingRead(run[..1], actions[..0]); }
      StartsAtZero(run, id, actions);
    } else {
      FollowSoFar(run, id, actions, n - 1);
      var f, f', a := run[n - 1], run[n], actions[n - 1];
      assert Acted(f, id, a, run[n - 1 + 1]);
      ActKeepsLog(f, id, a);
      InTimeStep(run, actions, n);
      if a.Read? {
        ReadContinuesExactly(f, id);
      } else {
        AppendOnlyAdds(f, id, a);
      }
    }
  }

  lemma AppendOnlyAdds(f: Follower, id: JobId, a: Action)
    requires CanAct(f, a) && id in f.t.jobs && a.Append?
    ensures var f' := Act(f, id, a); f'.cursor == f.cursor && f'.seen == f.seen && f.all <= f'.all
  {
  }

  lemma NothingRead(run: seq<Follower>, actions: seq<Action>)
    requires |run| == 1 && actions == []
    ensures InTime(run, actions)
  {
  }

  lemma StartsAtZero(run: seq<Follower>, id: JobId, actions: seq<Action>)
    requires FollowRun(run, id, actions)
    ensures LogOk(run[0].t, id, run[0].all) && run[0].cursor == 0 && run[0].seen == []
  {
  }

  lemma InTimeStep(run: seq<Follower>, actions: seq<Action>, n: nat)
    requires |run| == |actions| + 1 && 0 < n <= |actions|
    ensures InTime(run[..n + 1], actions[..n]) <==>
      InTime(run[..n], actions[..n - 1]) && (actions[n - 1].Read? ==> |run[n - 1].all| <= run[n - 1].cursor + MAX_EVENTS_PER_JOB)
  {
    if InTime(run[..n + 1], actions[..n]) {
      forall i | 0 <= i < n - 1 && actions[..n - 1][i].Read? ensures |run[..n][i].all| <= run[..n][i].cursor + MAX_EVENTS_PER_JOB {
        assert actions[..n][i].Read? && run[..n + 1][i] == run[..n][i];
      }
      assert actions[..n][n - 1] == actions[n - 1] && run[..n + 1][n - 1] == run[n - 1];
    }
    if InTime(run[..n], actions[..n - 1]) && (actions[n - 1].Read? ==> |run[n - 1].all| <= run[n - 1].cursor + MAX_EVENTS_PER_JOB) {
      forall i | 0 <= i < n && actions[..n][i].Read? ensures |run[..n + 1][i].all| <= run[..n + 1][i].cursor + MAX_EVENTS_PER_JOB {
        if i < n - 1 {
          assert actions[..n - 1][i] == actions[..n][i] && run[..n][i] == run[..n + 1][i];
        }
      }
    }
  }

  /**
   Over any interleaving of appends and page reads, the reader sees every event
   up to its cursor exactly once and in order, exactly when each of its reads
   came while at most MAX_EVENTS_PER_JOB events lay beyond its cursor.
   */
  lemma ReaderSeesEveryEventExactly(run: seq<Follower>, id: JobId, actions: seq<Action>)
    requires FollowRun(run, id, actions)
    ensures SeenAll(run[|actions|]) <==> InTime(run, actions)
  {
    FollowSoFar(run, id, actions, |actions|);
    assert run[..|actions| + 1] == run && actions[..|actions|] == actions;
  }
}

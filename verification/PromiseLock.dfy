/**
 The publisher's per-key lock made of chained promises. Each call passes through
 the stages below, one microtask at a time; calls, completions and microtasks of
 different calls may interleave in any way, and a task may end in a rejection.
 */
module PromiseLock {
  import opened Prelude

  type Key = nat

  /**
   Waiting: the task callback has not run. Running: the task has. Finished: its
   promise is settled, resolved or rejected. Settled: the tail is resolved, so
   the next call of the key may start. Cleaned: the tail's own callback has run.
   */
  datatype Stage = Waiting | Running | Finished(ok: bool) | Settled | Cleaned

  /** `prev` is the call whose tail was in the table when this call was made. */
  datatype Call = Call(key: Key, prev: Option<nat>, stage: Stage)

  /** The calls in the order they were made, the lock table, the tracked tails and the order of task starts. */
  datatype Locks = Locks(calls: seq<Call>, table: map<Key, nat>, operations: set<nat>, starts: seq<nat>)

  const NO_CALLS := Locks([], map[], {}, [])

  datatype Step =
    | Exclusive(key: Key)
    | Start(n: nat)
    | Finish(n: nat, ok: bool)
    | SettleTail(n: nat)
    | Cleanup(n: nat)

  predicate TailResolved(call: Call) {
    call.stage == Settled || call.stage == Cleaned
  }

  predicate Begun(call: Call) {
    call.stage != Waiting
  }

  predicate At(s: Locks, n: nat, stage: Stage) {
    n < |s.calls| && s.calls[n].stage == stage
  }

  /** The promise that a call's task is chained to is resolved. */
  predicate MayStart(s: Locks, n: nat) {
    && At(s, n, Waiting)
    && (s.calls[n].prev.Some? ==> s.calls[n].prev.value < |s.calls| && TailResolved(s.calls[s.calls[n].prev.value]))
  }

  predicate Enabled(s: Locks, step: Step) {
    match step
    case Exclusive(_) => true
    case Start(n) => MayStart(s, n)
    case Finish(n, _) => At(s, n, Running)
    case SettleTail(n) => n < |s.calls| && s.calls[n].stage.Finished?
    case Cleanup(n) => At(s, n, Settled)
  }

  function WithStage(s: Locks, n: nat, stage: Stage): Locks
    requires n < |s.calls|
  {
    s.(calls := s.calls[n := s.calls[n].(stage := stage)])
  }

  function After(s: Locks, step: Step): Locks
    requires Enabled(s, step)
  {
    match step
    case Exclusive(key) =>
      var n := |s.calls|;
      var prev := if key in s.table then Some(s.table[key]) else None;
      Locks(s.calls + [Call(key, prev, Waiting)], s.table[key := n], s.operations + {n}, s.starts)
    case Start(n) => WithStage(s, n, Running).(starts := s.starts + [n])
    case Finish(n, ok) => WithStage(s, n, Finished(ok))
    case SettleTail(n) => WithStage(s, n, Settled)
    case Cleanup(n) =>
      var key := s.calls[n].key;
      WithStage(s, n, Cleaned).(operations := s.operations - {n},
                                table := if key in s.table && s.table[key] == n then s.table - {key} else s.table)
  }

  // ----- The invariant -----

  predicate SameKey(s: Locks, m: nat, n: nat) {
    m < |s.calls| && n < |s.calls| && s.calls[m].key == s.calls[n].key
  }

  /** Exactly the calls that are not cleaned are tracked. */
  ghost predicate OperationsOk(s: Locks) {
    forall n: nat :: n in s.operations <==> n < |s.calls| && s.calls[n].stage != Cleaned
  }

  /** A table entry is the newest call of its key and not cleaned. */
  ghost predicate EntriesOk(s: Locks) {
    forall key :: key in s.table ==>
      && s.table[key] < |s.calls| && s.calls[s.table[key]].key == key && s.calls[s.table[key]].stage != Cleaned
      && forall n: nat :: s.table[key] < n < |s.calls| ==> s.calls[n].key != key
  }

  /** Without an entry, no call of the key has unfinished work. */
  ghost predicate MissingOk(s: Locks) {
    forall n: nat :: n < |s.calls| && s.calls[n].key !in s.table ==> TailResolved(s.calls[n])
  }

  /** A call is chained to an earlier call of its own key. */
  ghost predicate PrevOk(s: Locks) {
    forall n: nat :: n < |s.calls| && s.calls[n].prev.Some? ==> s.calls[n].prev.value < n && SameKey(s, s.calls[n].prev.value, n)
  }

  /** That is the latest earlier call of the key; without one, all earlier calls of the key had ended. */
  ghost predicate ChainedOk(s: Locks) {
    forall m: nat, n: nat :: m < n && SameKey(s, m, n) ==>
      if s.calls[n].prev.Some? then m <= s.calls[n].prev.value else TailResolved(s.calls[m])
  }

  /** A task begins only when every earlier task of its key has ended and its tail is resolved. */
  ghost predicate InOrder(s: Locks) {
    forall m: nat, n: nat :: m < n && SameKey(s, m, n) && Begun(s.calls[n]) ==> TailResolved(s.calls[m])
  }

  /** The log of starts holds every begun call once, and those of one key in the order of the calls. */
  ghost predicate StartsOk(s: Locks) {
    && (forall n: nat :: n in s.starts <==> n < |s.calls| && Begun(s.calls[n]))
    && (forall i, j :: 0 <= i < j < |s.starts| && SameKey(s, s.starts[i], s.starts[j]) ==> s.starts[i] < s.starts[j])
  }

  ghost predicate Inv(s: Locks) {
    OperationsOk(s) && EntriesOk(s) && MissingOk(s) && PrevOk(s) && ChainedOk(s) && InOrder(s) && StartsOk(s)
  }

  lemma ExclusiveChains(s: Locks, key: Key)
    requires EntriesOk(s) && MissingOk(s) && ChainedOk(s)
    ensures ChainedOk(After(s, Exclusive(key)))
  {
    var s', n := After(s, Exclusive(key)), |s.calls|;
    forall m: nat, k: nat | m < k && SameKey(s', m, k)
      ensures if s'.calls[k].prev.Some? then m <= s'.calls[k].prev.value else TailResolved(s'.calls[m])
    {
      assert s'.calls[m] == s.calls[m];
      if k < n { assert SameKey(s, m, k); }
    }
  }

  lemma ExclusiveKeeps(s: Locks, key: Key)
    requires Inv(s)
    ensures Inv(After(s, Exclusive(key)))
  {
    hide ChainedOk;
    var s', n := After(s, Exclusive(key)), |s.calls|;
    ExclusiveChains(s, key);
    forall m: nat, k: nat | m < k && SameKey(s', m, k) && Begun(s'.calls[k]) ensures TailResolved(s'.calls[m]) {
      assert k < n && SameKey(s, m, k);
    }
    assert StartsOk(s') by { MoreCallsStarts(s, s'); }
  }

  lemma MoreCallsStarts(s: Locks, s': Locks)
    requires StartsOk(s) && s'.starts == s.starts && |s.calls| <= |s'.calls|
    requires forall n: nat :: n < |s.calls| ==> s'.calls[n].key == s.calls[n].key && (Begun(s'.calls[n]) <==> Begun(s.calls[n]))
    requires forall n: nat :: |s.calls| <= n < |s'.calls| ==> !Begun(s'.calls[n])
    ensures StartsOk(s')
  {
    forall i, j | 0 <= i < j < |s'.starts| && SameKey(s', s'.starts[i], s'.starts[j]) ensures s'.starts[i] < s'.starts[j] {
      assert s.starts[i] in s.starts && s.starts[j] in s.starts;
      assert SameKey(s, s.starts[i], s.starts[j]);
    }
  }

  /** Everything earlier of the key has ended when a call may start. */
  lemma MayStartInOrder(s: Locks, n: nat, m: nat)
    requires PrevOk(s) && ChainedOk(s) && InOrder(s) && MayStart(s, n) && m < n && SameKey(s, m, n)
    ensures TailResolved(s.calls[m])
  {
    if s.calls[n].prev.Some? {
      var p := s.calls[n].prev.value;
      assert m <= p < n && SameKey(s, p, n);
      if m < p { assert SameKey(s, m, p); }
    }
  }

  /** One call moves to a later stage; nothing is undone. */
  predicate Advances(s: Locks, s': Locks, n: nat) {
    && n < |s.calls| && |s'.calls| == |s.calls|
    && s'.calls == s.calls[n := s.calls[n].(stage := s'.calls[n].stage)]
    && (TailResolved(s.calls[n]) ==> TailResolved(s'.calls[n])) && (Begun(s.calls[n]) ==> Begun(s'.calls[n]))
  }

  lemma AdvanceChains(s: Locks, s': Locks, n: nat)
    requires ChainedOk(s) && Advances(s, s', n)
    ensures ChainedOk(s')
  {
    forall m: nat, k: nat | m < k && SameKey(s', m, k)
      ensures if s'.calls[k].prev.Some? then m <= s'.calls[k].prev.value else TailResolved(s'.calls[m])
    {
      assert SameKey(s, m, k);
    }
  }

  lemma AdvanceInOrder(s: Locks, s': Locks, n: nat)
    requires PrevOk(s) && ChainedOk(s) && InOrder(s) && Advances(s, s', n) && (Begun(s.calls[n]) || MayStart(s, n))
    ensures InOrder(s')
  {
    forall m: nat, k: nat | m < k && SameKey(s', m, k) && Begun(s'.calls[k]) ensures TailResolved(s'.calls[m]) {
      assert SameKey(s, m, k);
      if k == n && !Begun(s.calls[n]) { MayStartInOrder(s, n, m); }
    }
  }

  /** Whatever has begun comes before a waiting call of the same key. */
  lemma BegunIsEarlier(s: Locks, k: nat, n: nat)
    requires InOrder(s) && At(s, n, Waiting) && SameKey(s, k, n) && Begun(s.calls[k])
    ensures k < n
  {
    assert SameKey(s, n, k);
  }

  lemma StartStarts(s: Locks, n: nat)
    requires StartsOk(s) && InOrder(s) && At(s, n, Waiting) && MayStart(s, n)
    ensures StartsOk(After(s, Start(n)))
  {
    var s' := After(s, Start(n));
    forall i, j | 0 <= i < j < |s'.starts| && SameKey(s', s'.starts[i], s'.starts[j]) ensures s'.starts[i] < s'.starts[j] {
      assert s.starts[i] in s.starts;
      assert SameKey(s, s'.starts[i], s'.starts[j]);
      if j == |s.starts| {
        BegunIsEarlier(s, s.starts[i], n);
      }
    }
  }

  lemma StartKeeps(s: Locks, n: nat)
    requires Inv(s) && MayStart(s, n)
    ensures Inv(After(s, Start(n)))
  {
    hide ChainedOk, InOrder, StartsOk;
    var s' := After(s, Start(n));
    AdvanceChains(s, s', n);
    AdvanceInOrder(s, s', n);
    StartStarts(s, n);
  }

  /** A task ends, or its tail resolves. */
  lemma AdvanceKeeps(s: Locks, n: nat, stage: Stage)
    requires Inv(s) && n < |s.calls| && (s.calls[n].stage == Running || s.calls[n].stage.Finished?)
    requires stage.Finished? || stage == Settled
    ensures Inv(WithStage(s, n, stage))
  {
    hide ChainedOk, InOrder, StartsOk;
    var s' := WithStage(s, n, stage);
    AdvanceChains(s, s', n);
    AdvanceInOrder(s, s', n);
    MoreCallsStarts(s, s');
  }

  /** When the newest call of a key has settled, every earlier one has. */
  lemma NewestSettledMeansAll(s: Locks, n: nat, m: nat)
    requires EntriesOk(s) && InOrder(s) && At(s, n, Settled) && SameKey(s, m, n)
    requires s.calls[n].key in s.table && s.table[s.calls[n].key] == n
    ensures TailResolved(s.calls[m])
  {
    assert m <= n;
  }

  lemma CleanupMissing(s: Locks, n: nat)
    requires EntriesOk(s) && MissingOk(s) && InOrder(s) && At(s, n, Settled)
    ensures MissingOk(After(s, Cleanup(n)))
  {
    var s' := After(s, Cleanup(n));
    forall m: nat | m < |s'.calls| && s'.calls[m].key !in s'.table ensures TailResolved(s'.calls[m]) {
      if s.calls[m].key in s.table {
        assert SameKey(s, m, n);
        NewestSettledMeansAll(s, n, m);
      }
    }
  }

  lemma CleanupKeeps(s: Locks, n: nat)
    requires Inv(s) && At(s, n, Settled)
    ensures Inv(After(s, Cleanup(n)))
  {
    hide ChainedOk, InOrder, StartsOk, MissingOk;
    var s' := After(s, Cleanup(n));
    AdvanceChains(s, s', n);
    AdvanceInOrder(s, s', n);
    MoreCallsStarts(s, s');
    CleanupMissing(s, n);
  }

  lemma StepKeeps(s: Locks, step: Step)
    requires Inv(s) && Enabled(s, step)
    ensures Inv(After(s, step))
  {
    hide Inv;
    match step
    case Exclusive(key) => ExclusiveKeeps(s, key);
    case Start(n) => StartKeeps(s, n);
    case Finish(n, ok) => AdvanceKeeps(s, n, Finished(ok));
    case SettleTail(n) => AdvanceKeeps(s, n, Settled);
    case Cleanup(n) => CleanupKeeps(s, n);
  }

  // ----- Any interleaving -----

  ghost predicate Follows(s: Locks, s': Locks) {
    exists step :: Enabled(s, step) && s' == After(s, step)
  }

  ghost predicate Run(run: seq<Locks>) {
    && run != [] && run[0] == NO_CALLS
    && forall i, j :: 0 <= i && j == i + 1 && j < |run| ==> Follows(run[i], run[j])
  }

  lemma {:induction false} RunKeeps(run: seq<Locks>, i: nat)
    requires Run(run) && i < |run|
    ensures Inv(run[i])
  {
    hide After, Enabled;
    if i > 0 {
      hide Inv;
      RunKeeps(run, i - 1);
      assert Follows(run[i - 1], run[i]);
      var step :| Enabled(run[i - 1], step) && run[i] == After(run[i - 1], step);
      StepKeeps(run[i - 1], step);
    }
  }

  /** A task that has begun and whose tail is not resolved yet. */
  predicate InTask(s: Locks, n: nat) {
    n < |s.calls| && Begun(s.calls[n]) && !TailResolved(s.calls[n])
  }

  /** At most one task of a key is between its start and its end. */
  lemma MutualExclusion(run: seq<Locks>, i: nat, m: nat, n: nat)
    requires Run(run) && i < |run| && SameKey(run[i], m, n) && InTask(run[i], m) && InTask(run[i], n)
    ensures m == n
  {
    hide Run, OperationsOk, EntriesOk, MissingOk, PrevOk, ChainedOk, StartsOk;
    RunKeeps(run, i);
    assert SameKey(run[i], n, m);
  }

  /** Tasks of a key start in the order of their calls, each after every earlier one has ended. */
  lemma FirstComeFirstServed(run: seq<Locks>, i: nat, a: nat, b: nat)
    requires Run(run) && i < |run| && a < b < |run[i].starts| && SameKey(run[i], run[i].starts[a], run[i].starts[b])
    ensures run[i].starts[a] < run[i].starts[b] && TailResolved(run[i].calls[run[i].starts[a]])
  {
    hide Run, OperationsOk, EntriesOk, MissingOk, PrevOk, ChainedOk;
    RunKeeps(run, i);
    assert run[i].starts[b] in run[i].starts;
  }

  /** No table entry for a key means that none of its tasks is waiting, running or unfinished. */
  lemma NoEntryMeansFree(run: seq<Locks>, i: nat, key: Key, n: nat)
    requires Run(run) && i < |run| && key !in run[i].table && n < |run[i].calls| && run[i].calls[n].key == key
    ensures TailResolved(run[i].calls[n])
  {
    hide Run, OperationsOk, EntriesOk, PrevOk, ChainedOk, StartsOk, InOrder;
    RunKeeps(run, i);
  }

  /** `idle` returns when no tail is tracked, which is when every call made so far has ended. */
  lemma IdleMeansNothingRuns(run: seq<Locks>, i: nat)
    requires Run(run) && i < |run|
    ensures run[i].operations == {} <==> forall n: nat :: n < |run[i].calls| ==> run[i].calls[n].stage == Cleaned
  {
    hide Run, EntriesOk, MissingOk, PrevOk, ChainedOk, StartsOk, InOrder;
    RunKeeps(run, i);
  }

  /** The next thing that can happen to a call that has not been cleaned, whatever its task's outcome was. */
  function NextFor(s: Locks, n: nat): Step
    requires n < |s.calls|
  {
    match s.calls[n].stage
    case Waiting => Start(n)
    case Running => Finish(n, true)
    case Finished(_) => SettleTail(n)
    case _ => Cleanup(n)
  }

  /** The first unfinished call of a key is never blocked: no outcome of an earlier task holds it back. */
  lemma FirstUnfinishedCanMove(s: Locks, n: nat)
    requires Inv(s) && n < |s.calls| && s.calls[n].stage != Cleaned
    requires forall m: nat :: m < n && SameKey(s, m, n) ==> TailResolved(s.calls[m])
    ensures Enabled(s, NextFor(s, n))
  {
    hide OperationsOk, EntriesOk, MissingOk, ChainedOk, InOrder, StartsOk;
    if s.calls[n].prev.Some? {
      assert SameKey(s, s.calls[n].prev.value, n);
    }
  }

  /** When nothing is left to happen, every task has ended, the table is empty and nothing is tracked. */
  lemma QuietMeansAllDone(run: seq<Locks>, i: nat)
    requires Run(run) && i < |run|
    requires forall n: nat :: n < |run[i].calls| && run[i].calls[n].stage != Cleaned ==> !Enabled(run[i], NextFor(run[i], n))
    ensures run[i].operations == {} && run[i].table == map[]
    ensures forall n: nat :: n < |run[i].calls| ==> run[i].calls[n].stage == Cleaned
  {
    hide Run, MissingOk, ChainedOk, InOrder, StartsOk, PrevOk;
    RunKeeps(run, i);
    var s := run[i];
    forall n: nat | n < |s.calls| ensures s.calls[n].stage == Cleaned {
      if s.calls[n].stage != Cleaned {
        var first := FirstOpen(s, n);
        FirstUnfinishedCanMove(s, first);
      }
    }
    forall key ensures key !in s.table {
    }
  }

  /** The first call of the key of `n` that has not resolved its tail, or else `n`. */
  lemma {:induction false} FirstOpen(s: Locks, n: nat) returns (first: nat)
    requires n < |s.calls| && s.calls[n].stage != Cleaned
    ensures first <= n && s.calls[first].stage != Cleaned
    ensures forall m: nat :: m < first && SameKey(s, m, first) ==> TailResolved(s.calls[m])
    decreases n
  {
    first := n;
    if m: nat :| m < n && SameKey(s, m, n) && !TailResolved(s.calls[m]) {
      first := FirstOpen(s, m);
    }
  }

  // ----- The service's fields -----

  /** The promises made so far, and the lock table and tracked tails that the service updates in place. */
  class PublisherLocks {
    var calls: seq<Call>
    var table: map<Key, nat>
    var operations: set<nat>
    ghost var starts: seq<nat>

    ghost function State(): Locks
      reads this
    {
      Locks(calls, table, operations, starts)
    }

    ghost predicate Valid()
      reads this
    {
      Inv(State())
    }

    constructor ()
      ensures Valid() && State() == NO_CALLS
    {
      calls, table, operations, starts := [], map[], {}, [];
    }

    /** Chains the task to the tail in the table and puts its own tail there. */
    method Exclusive(key: Key) returns (tail: nat)
      requires Valid()
      modifies this
      ensures Valid() && State() == After(old(State()), Step.Exclusive(key))
      ensures tail == old(|calls|) && tail in operations && key in table && table[key] == tail
    {
      hide Inv;
      StepKeeps(State(), Step.Exclusive(key));
      tail := |calls|;
      var prev := if key in table then Some(table[key]) else None;
      calls := calls + [Call(key, prev, Waiting)];
      table := table[key := tail];
      operations := operations + {tail};
    }

    method Start(n: nat)
      requires Valid() && MayStart(State(), n)
      modifies this
      ensures Valid() && State() == After(old(State()), Step.Start(n))
    {
      hide Inv;
      StepKeeps(State(), Step.Start(n));
      calls := calls[n := calls[n].(stage := Running)];
      starts := starts + [n];
    }

    method Finish(n: nat, ok: bool)
      requires Valid() && At(State(), n, Running)
      modifies this
      ensures Valid() && State() == After(old(State()), Step.Finish(n, ok))
    {
      hide Inv;
      StepKeeps(State(), Step.Finish(n, ok));
      calls := calls[n := calls[n].(stage := Finished(ok))];
    }

    method SettleTail(n: nat)
      requires Valid() && Enabled(State(), Step.SettleTail(n))
      modifies this
      ensures Valid() && State() == After(old(State()), Step.SettleTail(n))
    {
      hide Inv;
      StepKeeps(State(), Step.SettleTail(n));
      calls := calls[n := calls[n].(stage := Settled)];
    }

    /** The tail's own callback: the entry goes only if it is still this tail. */
    method Cleanup(n: nat)
      requires Valid() && At(State(), n, Settled)
      modifies this
      ensures Valid() && State() == After(old(State()), Step.Cleanup(n))
    {
      hide Inv;
      StepKeeps(State(), Step.Cleanup(n));
      var key := calls[n].key;
      calls := calls[n := calls[n].(stage := Cleaned)];
      operations := operations - {n};
      if key in table && table[key] == n {
        table := table - {key};
      }
    }
  }
}

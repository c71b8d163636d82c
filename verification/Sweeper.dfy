/**
 One pass of the custody sweeper: which keys and outputs recovery protects, what
 the sweeper attempts for every other output, and what it remembers and records.
 The chain and the indexer answer through parameters.
 */
module Sweeper {
  import opened Prelude

  type Time = int
  type KeyId = nat
  type Ref = nat
  type Party = nat
  type SessionId = nat

  datatype Layout = Legacy | Identity
  datatype RowState = Open | Claimed | Submitted | OtherState

  datatype Row = Row(ref: Ref, state: RowState, postedAt: Time, deliverBy: Option<Time>, layout: Layout)

  datatype SessionState = SessionOpen | SessionInvalid | SessionClosed
  datatype Session = Session(id: SessionId, state: SessionState, escrow: Ref, price: nat)

  datatype Status = Completed | Returned | Failed
  datatype Usage = Usage(session: SessionId, status: Status, cost: Option<nat>)

  datatype Kind = Accept | Reclaim | RefundRevoked
  /** A transaction that the sweeper sends; it may or may not confirm. */
  datatype Spend = Spend(key: KeyId, ref: Ref, kind: Kind)

  datatype Utxo = Missing | NoDatum | Live(layout: Layout)
  datatype Refusal = NoRefusal | ReceiptNotHeld | ReceiptWrong

  /** What the chain, the receipt store and the settle calls answer for one output. */
  datatype Answers = Answers(
    readFails: bool, utxo: Utxo, refundApplies: bool, refusal: Refusal, refusalAfterEnd: Refusal, confirms: bool, goneAfter: bool)

  datatype Key = Key(id: KeyId, rows: Option<seq<Row>>, sessions: seq<Session>)

  datatype Protection = Protection(refs: set<Ref>, keys: set<KeyId>)

  datatype State = State(
    settled: seq<Ref>, unheld: seq<Ref>, sessions: map<SessionId, Session>, usage: seq<Usage>, spends: seq<Spend>)

  const MIN_AGE_MS: int := 90_000
  const RECLAIM_AFTER_MS: int := 11 * 60 * 1000
  const CHAT_RECLAIM_AFTER_MS: int := 35 * 60 * 1000
  const DELIVER_BY_BUFFER_MS: int := 60_000
  const SETTLED_REFS_MAX: nat := 5_000

  // ----- What recovery protects -----

  datatype UnfinishedJob = UnfinishedJob(key: KeyId, escrow: Option<Ref>)

  datatype LineageAnswer = Found(refs: seq<Ref>) | Unknown | Unreachable

  function ProtectedKeys(jobs: seq<UnfinishedJob>): set<KeyId> {
    set job | job in jobs && job.escrow.Some? :: job.key
  }

  /** The output is the escrow of a funded unfinished job, or the indexer names it for one. */
  ghost predicate NamedFor(jobs: seq<UnfinishedJob>, lineage: Ref -> LineageAnswer, r: Ref) {
    exists job :: job in jobs && job.escrow.Some?
      && (r == job.escrow.value || (lineage(job.escrow.value).Found? && r in lineage(job.escrow.value).refs))
  }

  /** The method's loop builds the sets job by job, before it tries to recover each of them. */
  method Protect(jobs: seq<UnfinishedJob>, lineage: Ref -> LineageAnswer) returns (p: Protection)
    ensures p.keys == ProtectedKeys(jobs)
    ensures forall key :: key in p.keys <==> exists job :: job in jobs && job.escrow.Some? && job.key == key
    ensures forall job :: job in jobs && job.escrow.Some? ==>
      && job.escrow.value in p.refs
      && (lineage(job.escrow.value).Found? ==> forall r :: r in lineage(job.escrow.value).refs ==> r in p.refs)
    ensures forall r :: r in p.refs ==> NamedFor(jobs, lineage, r)
  {
    p := Protection({}, {});
    for n := 0 to |jobs|
      invariant p.keys == ProtectedKeys(jobs[..n])
      invariant forall job :: job in jobs[..n] && job.escrow.Some? ==>
        && job.escrow.value in p.refs
        && (lineage(job.escrow.value).Found? ==> forall r :: r in lineage(job.escrow.value).refs ==> r in p.refs)
      invariant forall r :: r in p.refs ==> NamedFor(jobs[..n], lineage, r)
    {
      var job := jobs[n];
      assert jobs[..n + 1] == jobs[..n] + [job];
      assert forall r :: NamedFor(jobs[..n], lineage, r) ==> NamedFor(jobs[..n + 1], lineage, r);
      assert job in jobs[..n + 1];
      if job.escrow.Some? {
        p := Protection(p.refs + {job.escrow.value}, p.keys + {job.key});
        var answer := lineage(job.escrow.value);
        if answer.Found? {
          p := p.(refs := p.refs + set r | r in answer.refs);
        } else {
          p := p.(keys := p.keys + {job.key});
        }
      }
      ProtectedKeysStep(jobs[..n], job);
    }
    assert jobs[..|jobs|] == jobs;
  }

  lemma ProtectedKeysStep(jobs: seq<UnfinishedJob>, job: UnfinishedJob)
    ensures ProtectedKeys(jobs + [job]) == ProtectedKeys(jobs) + (if job.escrow.Some? then {job.key} else {})
  {
    assert forall j :: j in jobs + [job] <==> j in jobs || j == job;
  }

  // ----- The memory of settled outputs -----

  /** A bounded set in insertion order: the oldest entry goes when it is full. */
  function Remember(refs: seq<Ref>, ref: Ref): seq<Ref> {
    var added := if ref in refs then refs else refs + [ref];
    if |added| > SETTLED_REFS_MAX then added[1..] else added
  }

  function RememberAll(refs: seq<Ref>, later: seq<Ref>): seq<Ref>
    decreases |later|
  {
    if later == [] then refs else RememberAll(Remember(refs, later[0]), later[1..])
  }

  predicate NoDuplicates(refs: seq<Ref>) {
    forall i, j :: 0 <= i < j < |refs| ==> refs[i] != refs[j]
  }

  lemma RememberKeeps(refs: seq<Ref>, ref: Ref)
    requires NoDuplicates(refs) && |refs| <= SETTLED_REFS_MAX
    ensures NoDuplicates(Remember(refs, ref)) && |Remember(refs, ref)| <= SETTLED_REFS_MAX && ref in Remember(refs, ref)
  {
    if ref !in refs {
      assert Remember(refs, ref)[|Remember(refs, ref)| - 1] == ref;
    }
  }

  /** An output is forgotten only after as many others were remembered as the memory holds. */
  lemma {:induction false} RememberedForLong(refs: seq<Ref>, at: nat, later: seq<Ref>)
    requires NoDuplicates(refs) && |refs| <= SETTLED_REFS_MAX && at < |refs|
    requires |refs| - at + |later| <= SETTLED_REFS_MAX
    ensures refs[at] in RememberAll(refs, later)
    decreases |later|
  {
    if later != [] {
      RememberKeeps(refs, later[0]);
      var next := Remember(refs, later[0]);
      var added := if later[0] in refs then refs else refs + [later[0]];
      var place := if |added| > SETTLED_REFS_MAX then at - 1 else at;
      assert place >= 0 && next[place] == refs[at];
      RememberedForLong(next, place, later[1..]);
    }
  }

  // ----- What the sweeper does with one output -----

  /** What one output gets: an attempted spend, a place in a memory, and a session to close. */
  datatype Decision = Decision(attempt: Option<Kind>, settled: bool, unheld: bool, close: Option<(Status, bool)>)

  const NOTHING := Decision(None, false, false, None)

  /** A returned ticket does not end a live session. */
  function CloseRefunded(row: Row, session: Option<Session>, ticketMode: bool): Option<(Status, bool)> {
    if ticketMode && row.state == Open && session.Some? && session.value.state == SessionOpen then None
    else Some((Returned, false))
  }

  function DecideRefund(row: Row, a: Answers, session: Option<Session>, ticketMode: bool): Decision {
    if a.confirms then Decision(Some(RefundRevoked), true, false, CloseRefunded(row, session, ticketMode))
    else NOTHING.(attempt := Some(RefundRevoked))
  }

  function RefundPossible(a: Answers): bool {
    a.utxo == Live(Identity) && a.refundApplies
  }

  function DecideSubmitted(row: Row, a: Answers, session: Option<Session>, ticketMode: bool): Decision {
    if a.readFails then NOTHING
    else if a.utxo.Missing? then Decision(None, true, false, Some((Completed, true)))
    else if a.utxo.NoDatum? then NOTHING
    else if RefundPossible(a) then DecideRefund(row, a, session, ticketMode)
    else
      var refusal := if a.refusal == ReceiptNotHeld && session.Some? && session.value.state == SessionInvalid
                     then a.refusalAfterEnd else a.refusal;
      match refusal
      case ReceiptNotHeld => NOTHING.(unheld := true)
      case ReceiptWrong => Decision(None, true, false, Some((Failed, false)))
      case NoRefusal =>
        if a.confirms || a.goneAfter then Decision(Some(Accept), true, false, Some((Completed, true)))
        else NOTHING.(attempt := Some(Accept))
  }

  predicate ReclaimDue(row: Row, session: Option<Session>, now: Time) {
    && now - row.postedAt > (if session.Some? then CHAT_RECLAIM_AFTER_MS else RECLAIM_AFTER_MS)
    && (row.deliverBy.Some? ==> now > row.deliverBy.value + DELIVER_BY_BUFFER_MS)
  }

  function DecideWaiting(row: Row, a: Answers, session: Option<Session>, ticketMode: bool, now: Time): Decision {
    if ReclaimDue(row, session, now) then
      if a.confirms then Decision(Some(Reclaim), true, false, CloseRefunded(row, session, ticketMode))
      else NOTHING.(attempt := Some(Reclaim))
    else if row.layout == Identity && !a.readFails && RefundPossible(a) then DecideRefund(row, a, session, ticketMode)
    else NOTHING
  }

  function Decide(row: Row, a: Answers, session: Option<Session>, ticketMode: bool, now: Time): Decision {
    match row.state
    case Submitted => DecideSubmitted(row, a, session, ticketMode)
    case OtherState => NOTHING
    case _ => DecideWaiting(row, a, session, ticketMode, now)
  }

  /** A session ends once: only an open or invalidated one is closed, with one usage record. */
  function CloseSession(s: State, session: Session, status: Status, cost: Option<nat>): State {
    if session.id !in s.sessions || s.sessions[session.id].state == SessionClosed then s
    else s.(sessions := s.sessions[session.id := s.sessions[session.id].(state := SessionClosed)],
            usage := s.usage + [Usage(session.id, status, cost)])
  }

  function Apply(s: State, key: KeyId, row: Row, d: Decision, session: Option<Session>): State {
    var spent := if d.attempt.Some? then s.(spends := s.spends + [Spend(key, row.ref, d.attempt.value)]) else s;
    var noted := if d.settled then spent.(settled := Remember(spent.settled, row.ref)) else spent;
    var logged := if d.unheld && row.ref !in noted.unheld then noted.(unheld := Remember(noted.unheld, row.ref)) else noted;
    if d.close.Some? && session.Some?
    then CloseSession(logged, session.value, d.close.value.0, if d.close.value.1 then Some(session.value.price) else None)
    else logged
  }

  predicate Skipped(s: State, row: Row, p: Protection, now: Time) {
    row.ref in s.settled || row.ref in p.refs || now - row.postedAt < MIN_AGE_MS
  }

  // ----- A whole pass -----

  /** The first row of the session's original output tells which rows are the session's. */
  function OriginOf(rows: seq<Row>, escrow: Ref): Option<Row> {
    if rows == [] then None else if rows[0].ref == escrow then Some(rows[0]) else OriginOf(rows[1..], escrow)
  }

  function SessionsByTime(sessions: seq<Session>, rows: seq<Row>): map<Time, Session> {
    if sessions == [] then map[]
    else
      var front, last := SessionsByTime(sessions[..|sessions| - 1], rows), sessions[|sessions| - 1];
      var origin := OriginOf(rows, last.escrow);
      if origin.Some? then front[origin.value.postedAt := last] else front
  }

  function SessionAt(m: map<Time, Session>, at: Time): Option<Session> {
    if at in m then Some(m[at]) else None
  }

  function SweepRow(s: State, key: KeyId, row: Row, byTime: map<Time, Session>, p: Protection, answers: Ref -> Answers,
                    ticketMode: bool, now: Time): State {
    if Skipped(s, row, p, now) then s
    else
      var session := SessionAt(byTime, row.postedAt);
      Apply(s, key, row, Decide(row, answers(row.ref), session, ticketMode, now), session)
  }

  function SweepRows(s: State, key: KeyId, rows: seq<Row>, byTime: map<Time, Session>, p: Protection, answers: Ref -> Answers,
                     ticketMode: bool, now: Time): State
    decreases |rows|
  {
    if rows == [] then s
    else
      var n := |rows| - 1;
      SweepRow(SweepRows(s, key, rows[..n], byTime, p, answers, ticketMode, now), key, rows[n], byTime, p, answers, ticketMode, now)
  }

  function SweepKey(s: State, key: Key, p: Protection, answers: Ref -> Answers, ticketMode: bool, now: Time): State {
    if key.id in p.keys || key.rows.None? then s
    else SweepRows(s, key.id, key.rows.value, SessionsByTime(key.sessions, key.rows.value), p, answers, ticketMode, now)
  }

  function SweepKeys(s: State, keys: seq<Key>, p: Protection, answers: Ref -> Answers, ticketMode: bool, now: Time): State
    decreases |keys|
  {
    if keys == [] then s
    else SweepKey(SweepKeys(s, keys[..|keys| - 1], p, answers, ticketMode, now), keys[|keys| - 1], p, answers, ticketMode, now)
  }

  class GatewaySweeper {
    var settled: seq<Ref>
    var unheld: seq<Ref>
    var sessions: map<SessionId, Session>
    var usage: seq<Usage>
    ghost var spends: seq<Spend>

    ghost function Now(): State
      reads this
    {
      State(settled, unheld, sessions, usage, spends)
    }

    constructor (known: map<SessionId, Session>)
      ensures Now() == State([], [], known, [], [])
    {
      settled, unheld, sessions, usage, spends := [], [], known, [], [];
    }

    /** Re-reads the session, so a close that won the race stays the only one. */
    method CloseSessionRow(session: Session, status: Status, cost: Option<nat>)
      modifies this
      ensures Now() == CloseSession(old(Now()), session, status, cost)
    {
      if session.id !in sessions || sessions[session.id].state == SessionClosed {
        return;
      }
      sessions := sessions[session.id := sessions[session.id].(state := SessionClosed)];
      usage := usage + [Usage(session.id, status, cost)];
    }

    method SweepOne(key: KeyId, row: Row, byTime: map<Time, Session>, p: Protection, answers: Ref -> Answers, ticketMode: bool, now: Time)
      modifies this
      ensures Now() == SweepRow(old(Now()), key, row, byTime, p, answers, ticketMode, now)
    {
      if row.ref in settled || row.ref in p.refs || now - row.postedAt < MIN_AGE_MS {
        return;
      }
      var session := SessionAt(byTime, row.postedAt);
      var d := Decide(row, answers(row.ref), session, ticketMode, now);
      if d.attempt.Some? {
        spends := spends + [Spend(key, row.ref, d.attempt.value)];
      }
      if d.settled {
        settled := Remember(settled, row.ref);
      }
      if d.unheld && row.ref !in unheld {
        unheld := Remember(unheld, row.ref);
      }
      if d.close.Some? && session.Some? {
        CloseSessionRow(session.value, d.close.value.0, if d.close.value.1 then Some(session.value.price) else None);
      }
    }

    method RunSweepOnce(keys: seq<Key>, p: Protection, answers: Ref -> Answers, ticketMode: bool, now: Time)
      modifies this
      ensures Now() == SweepKeys(old(Now()), keys, p, answers, ticketMode, now)
    {
      hide SweepRow;
      for k := 0 to |keys|
        invariant Now() == SweepKeys(old(Now()), keys[..k], p, answers, ticketMode, now)
      {
        var key := keys[k];
        assert keys[..k + 1][..k] == keys[..k] && keys[..k + 1][k] == key;
        if key.id !in p.keys && key.rows.Some? {
          var rows := key.rows.value;
          var byTime := SessionsByTime(key.sessions, rows);
          ghost var before := Now();
          for n := 0 to |rows|
            invariant Now() == SweepRows(before, key.id, rows[..n], byTime, p, answers, ticketMode, now)
          {
            assert rows[..n + 1][..n] == rows[..n] && rows[..n + 1][n] == rows[n];
            SweepOne(key.id, rows[n], byTime, p, answers, ticketMode, now);
          }
          assert rows[..|rows|] == rows;
        }
      }
      assert keys[..|keys|] == keys;
    }
  }

  // ----- What a pass never does -----

  /** A spend that the pass may send: for an unprotected output of an unprotected key, and of the right kind. */
  ghost predicate SpendOk(sp: Spend, keys: seq<Key>, p: Protection, answers: Ref -> Answers, now: Time) {
    && sp.key !in p.keys && sp.ref !in p.refs
    && exists k: nat, n: nat ::
         && RowAt(keys, k, n) && keys[k].id == sp.key && keys[k].rows.value[n].ref == sp.ref
         && KindOk(sp.kind, keys[k].rows.value[n], answers(sp.ref), now)
  }

  predicate RowAt(keys: seq<Key>, k: nat, n: nat) {
    k < |keys| && keys[k].rows.Some? && n < |keys[k].rows.value|
  }

  /** Accept needs a live Submitted escrow with an unobjectionable receipt; Reclaim a due Open or Claimed one. */
  predicate KindOk(kind: Kind, row: Row, a: Answers, now: Time) {
    match kind
    case Accept =>
      && row.state == Submitted && a.utxo.Live? && !RefundPossible(a)
      && (a.refusal == NoRefusal || (a.refusal == ReceiptNotHeld && a.refusalAfterEnd == NoRefusal))
    case Reclaim =>
      && (row.state == Open || row.state == Claimed)
      && now - row.postedAt > RECLAIM_AFTER_MS && (row.deliverBy.Some? ==> now > row.deliverBy.value + DELIVER_BY_BUFFER_MS)
    case RefundRevoked => row.state != OtherState && RefundPossible(a)
  }

  lemma DecisionKind(row: Row, a: Answers, session: Option<Session>, ticketMode: bool, now: Time)
    ensures var d := Decide(row, a, session, ticketMode, now); d.attempt.Some? ==> KindOk(d.attempt.value, row, a, now)
  {
  }

  lemma RowSpendsOk(s: State, key: KeyId, row: Row, byTime: map<Time, Session>, p: Protection, answers: Ref -> Answers, ticketMode: bool, now: Time)
    ensures var s' := SweepRow(s, key, row, byTime, p, answers, ticketMode, now);
      && s.spends <= s'.spends
      && forall i :: |s.spends| <= i < |s'.spends| ==>
           && s'.spends[i].key == key && s'.spends[i].ref == row.ref && row.ref !in p.refs
           && KindOk(s'.spends[i].kind, row, answers(row.ref), now)
  {
    hide Decide, KindOk, Remember;
    DecisionKind(row, answers(row.ref), SessionAt(byTime, row.postedAt), ticketMode, now);
  }

  lemma {:induction false} RowsSpendOk(s: State, keys: seq<Key>, k: nat, m: nat, byTime: map<Time, Session>, p: Protection,
                                       answers: Ref -> Answers, ticketMode: bool, now: Time)
    requires k < |keys| && keys[k].rows.Some? && m <= |keys[k].rows.value| && keys[k].id !in p.keys
    ensures var s' := SweepRows(s, keys[k].id, keys[k].rows.value[..m], byTime, p, answers, ticketMode, now);
      && s.spends <= s'.spends
      && forall i :: |s.spends| <= i < |s'.spends| ==> SpendOk(s'.spends[i], keys, p, answers, now)
    decreases m
  {
    hide SweepRow, KindOk, SpendOk;
    if m > 0 {
      var rows := keys[k].rows.value;
      assert rows[..m][..m - 1] == rows[..m - 1] && rows[..m][m - 1] == rows[m - 1];
      RowsSpendOk(s, keys, k, m - 1, byTime, p, answers, ticketMode, now);
      var mid := SweepRows(s, keys[k].id, rows[..m - 1], byTime, p, answers, ticketMode, now);
      RowSpendsOk(mid, keys[k].id, rows[m - 1], byTime, p, answers, ticketMode, now);
      var s' := SweepRow(mid, keys[k].id, rows[m - 1], byTime, p, answers, ticketMode, now);
      forall i | |s.spends| <= i < |s'.spends| ensures SpendOk(s'.spends[i], keys, p, answers, now) {
        if i >= |mid.spends| { OneSpendOk(s'.spends[i], keys, k, m - 1, p, answers, now); }
      }
    }
  }

  lemma OneSpendOk(sp: Spend, keys: seq<Key>, k: nat, n: nat, p: Protection, answers: Ref -> Answers, now: Time)
    requires RowAt(keys, k, n) && sp.key == keys[k].id && sp.ref == keys[k].rows.value[n].ref
    requires sp.key !in p.keys && sp.ref !in p.refs && KindOk(sp.kind, keys[k].rows.value[n], answers(sp.ref), now)
    ensures SpendOk(sp, keys, p, answers, now)
  {
  }

  /** Every transaction of a pass is one that the pass may send. */
  lemma {:induction false} PassSpendsOk(s: State, keys: seq<Key>, m: nat, p: Protection, answers: Ref -> Answers, ticketMode: bool, now: Time)
    requires m <= |keys|
    ensures var s' := SweepKeys(s, keys[..m], p, answers, ticketMode, now);
      && s.spends <= s'.spends
      && forall i :: |s.spends| <= i < |s'.spends| ==> SpendOk(s'.spends[i], keys, p, answers, now)
    decreases m
  {
    hide SweepRows, SpendOk;
    if m > 0 {
      assert keys[..m][..m - 1] == keys[..m - 1] && keys[..m][m - 1] == keys[m - 1];
      PassSpendsOk(s, keys, m - 1, p, answers, ticketMode, now);
      var mid, key := SweepKeys(s, keys[..m - 1], p, answers, ticketMode, now), keys[m - 1];
      if key.id !in p.keys && key.rows.Some? {
        assert key.rows.value[..|key.rows.value|] == key.rows.value;
        RowsSpendOk(mid, keys, m - 1, |key.rows.value|, SessionsByTime(key.sessions, key.rows.value), p, answers, ticketMode, now);
      }
    }
  }

  /** An indexer lists for a key the outputs whose buyer is the key's wallet; wallets belong to one key each. */
  ghost predicate OwnRows(keys: seq<Key>, wallet: KeyId -> Party, buyer: Ref -> Party) {
    && (forall k: nat, n: nat :: RowAt(keys, k, n) ==> buyer(keys[k].rows.value[n].ref) == wallet(keys[k].id))
    && (forall a, b :: wallet(a) == wallet(b) ==> a == b)
  }

  /**
   A pass spends no output of a job that was funded and unfinished when the pass
   began, not even one that the indexer could not name.
   */
  lemma SweepSparesFundedJobs(s: State, keys: seq<Key>, jobs: seq<UnfinishedJob>, p: Protection, answers: Ref -> Answers, ticketMode: bool,
                              now: Time, wallet: KeyId -> Party, buyer: Ref -> Party, job: UnfinishedJob, i: nat)
    requires p.keys == ProtectedKeys(jobs) && job in jobs && job.escrow.Some? && OwnRows(keys, wallet, buyer)
    requires var s' := SweepKeys(s, keys, p, answers, ticketMode, now); |s.spends| <= i < |s'.spends|
    ensures var sp := SweepKeys(s, keys, p, answers, ticketMode, now).spends[i];
      sp.key != job.key && buyer(sp.ref) != wallet(job.key)
  {
    hide SweepKeys, KindOk;
    assert keys[..|keys|] == keys;
    PassSpendsOk(s, keys, |keys|, p, answers, ticketMode, now);
    var sp := SweepKeys(s, keys, p, answers, ticketMode, now).spends[i];
    assert SpendOk(sp, keys, p, answers, now);
    assert job.key in ProtectedKeys(jobs);
    var k: nat, n: nat :| RowAt(keys, k, n) && keys[k].id == sp.key && keys[k].rows.value[n].ref == sp.ref;
  }

  // ----- What a pass records -----

  /** Sessions only close, and each close has exactly one new usage record. */
  ghost predicate ClosesOnce(s: State, s': State) {
    && s.usage <= s'.usage
    && (forall id :: id in s.sessions <==> id in s'.sessions)
    && (forall id :: id in s.sessions ==> s'.sessions[id] == s.sessions[id] || s'.sessions[id] == s.sessions[id].(state := SessionClosed))
    && (forall id :: id in s.sessions ==>
          Records(s'.usage[|s.usage|..], id) == if s'.sessions[id].state == s.sessions[id].state then 0 else 1)
  }

  function Records(usage: seq<Usage>, id: SessionId): nat {
    if usage == [] then 0 else Records(usage[..|usage| - 1], id) + (if usage[|usage| - 1].session == id then 1 else 0)
  }

  lemma {:induction false} RecordsAdd(a: seq<Usage>, b: seq<Usage>, id: SessionId)
    ensures Records(a + b, id) == Records(a, id) + Records(b, id)
  {
    if b == [] {
      assert a + b == a;
    } else {
      assert (a + b)[..|a + b| - 1] == a + b[..|b| - 1];
      RecordsAdd(a, b[..|b| - 1], id);
    }
  }

  lemma ClosesOnceTransitive(a: State, b: State, c: State)
    requires ClosesOnce(a, b) && ClosesOnce(b, c)
    ensures ClosesOnce(a, c)
  {
    var first, second := b.usage[|a.usage|..], c.usage[|b.usage|..];
    assert c.usage[|a.usage|..] == first + second;
    forall id | id in a.sessions
      ensures Records(c.usage[|a.usage|..], id) == if c.sessions[id].state == a.sessions[id].state then 0 else 1
    {
      RecordsAdd(first, second, id);
    }
  }

  lemma CloseClosesOnce(s: State, s': State, session: Session, status: Status, cost: Option<nat>)
    requires s'.sessions == CloseSession(s, session, status, cost).sessions && s'.usage == CloseSession(s, session, status, cost).usage
    ensures ClosesOnce(s, s')
  {
    var added := s'.usage[|s.usage|..];
    if session.id in s.sessions && s.sessions[session.id].state != SessionClosed {
      assert added == [Usage(session.id, status, cost)];
      assert added[..0] == [];
    } else {
      assert added == [];
    }
  }

  lemma RowClosesOnce(s: State, key: KeyId, row: Row, byTime: map<Time, Session>, p: Protection, answers: Ref -> Answers, ticketMode: bool, now: Time)
    ensures ClosesOnce(s, SweepRow(s, key, row, byTime, p, answers, ticketMode, now))
  {
    hide Decide, Remember, ClosesOnce;
    var s' := SweepRow(s, key, row, byTime, p, answers, ticketMode, now);
    var session := SessionAt(byTime, row.postedAt);
    var d := Decide(row, answers(row.ref), session, ticketMode, now);
    if !Skipped(s, row, p, now) && d.close.Some? && session.Some? {
      CloseClosesOnce(s, s', session.value, d.close.value.0, if d.close.value.1 then Some(session.value.price) else None);
    } else {
      SameClosesOnce(s, s');
    }
  }

  lemma SameClosesOnce(s: State, s': State)
    requires s'.sessions == s.sessions && s'.usage == s.usage
    ensures ClosesOnce(s, s')
  {
    assert s'.usage[|s.usage|..] == [];
  }

  lemma {:induction false} RowsCloseOnce(s: State, key: KeyId, rows: seq<Row>, byTime: map<Time, Session>, p: Protection,
                                         answers: Ref -> Answers, ticketMode: bool, now: Time)
    ensures ClosesOnce(s, SweepRows(s, key, rows, byTime, p, answers, ticketMode, now))
    decreases |rows|
  {
    hide SweepRow, ClosesOnce;
    SameClosesOnce(s, s);
    if rows != [] {
      var n := |rows| - 1;
      RowsCloseOnce(s, key, rows[..n], byTime, p, answers, ticketMode, now);
      var mid := SweepRows(s, key, rows[..n], byTime, p, answers, ticketMode, now);
      RowClosesOnce(mid, key, rows[n], byTime, p, answers, ticketMode, now);
      ClosesOnceTransitive(s, mid, SweepRow(mid, key, rows[n], byTime, p, answers, ticketMode, now));
    }
  }

  /** Over a whole pass, and so over any number of passes, a session is closed and billed at most once. */
  lemma {:induction false} SessionsCloseOnce(s: State, keys: seq<Key>, p: Protection, answers: Ref -> Answers, ticketMode: bool, now: Time)
    ensures ClosesOnce(s, SweepKeys(s, keys, p, answers, ticketMode, now))
    decreases |keys|
  {
    hide SweepRows, ClosesOnce;
    SameClosesOnce(s, s);
    if keys != [] {
      var front, key := keys[..|keys| - 1], keys[|keys| - 1];
      SessionsCloseOnce(s, front, p, answers, ticketMode, now);
      var mid := SweepKeys(s, front, p, answers, ticketMode, now);
      SameClosesOnce(mid, mid);
      if key.id !in p.keys && key.rows.Some? {
        RowsCloseOnce(mid, key.id, key.rows.value, SessionsByTime(key.sessions, key.rows.value), p, answers, ticketMode, now);
      }
      ClosesOnceTransitive(s, mid, SweepKey(mid, key, p, answers, ticketMode, now));
    }
  }

  // ----- Which session a row is taken to belong to -----

  /** The session found for a row is a listed one whose original output was posted at the row's time. */
  lemma {:induction false} SessionFoundByTime(sessions: seq<Session>, rows: seq<Row>, at: Time)
    ensures match SessionAt(SessionsByTime(sessions, rows), at)
      case Some(session) => session in sessions && OriginOf(rows, session.escrow).Some? && OriginOf(rows, session.escrow).value.postedAt == at
      case None => forall session :: session in sessions && OriginOf(rows, session.escrow).Some? ==>
        OriginOf(rows, session.escrow).value.postedAt != at
  {
    if sessions != [] {
      var front := sessions[..|sessions| - 1];
      SessionFoundByTime(front, rows, at);
      assert sessions == front + [sessions[|sessions| - 1]];
    }
  }

  lemma {:induction false} OriginIsRow(rows: seq<Row>, escrow: Ref)
    ensures OriginOf(rows, escrow).Some? ==> OriginOf(rows, escrow).value in rows && OriginOf(rows, escrow).value.ref == escrow
  {
    if rows != [] {
      OriginIsRow(rows[1..], escrow);
    }
  }

  /** The session found for a row, if any, is the session of that row's escrow. */
  ghost predicate RowsFindTheirs(sessions: seq<Session>, rows: seq<Row>, escrowOf: Ref -> Ref) {
    forall row :: row in rows ==> FindsOwn(sessions, rows, row, escrowOf)
  }

  predicate FindsOwn(sessions: seq<Session>, rows: seq<Row>, row: Row, escrowOf: Ref -> Ref) {
    var found := SessionAt(SessionsByTime(sessions, rows), row.postedAt);
    found.Some? ==> found.value.escrow == escrowOf(row.ref)
  }

  /** The original output of the session is listed with this posting time. */
  predicate OriginAt(rows: seq<Row>, session: Session, at: Time) {
    OriginOf(rows, session.escrow).Some? && OriginOf(rows, session.escrow).value.postedAt == at
  }

  /** A posting time that a listed session uses is shared by rows of that session's escrow only. */
  ghost predicate SessionTimesApart(sessions: seq<Session>, rows: seq<Row>, escrowOf: Ref -> Ref) {
    forall s, row :: s in sessions && row in rows && OriginAt(rows, s, row.postedAt) ==> escrowOf(row.ref) == s.escrow
  }

  /**
   Every row finds the session of its own escrow exactly when no listed session's
   posting time is shared with another escrow of the key.
   */
  lemma RowFindsItsSessionExactly(sessions: seq<Session>, rows: seq<Row>, escrowOf: Ref -> Ref)
    requires forall s :: s in sessions ==> escrowOf(s.escrow) == s.escrow
    ensures RowsFindTheirs(sessions, rows, escrowOf) <==> SessionTimesApart(sessions, rows, escrowOf)
  {
    var byTime := SessionsByTime(sessions, rows);
    forall row | row in rows
      ensures SessionTimesApart(sessions, rows, escrowOf) ==> FindsOwn(sessions, rows, row, escrowOf)
    {
      SessionFoundByTime(sessions, rows, row.postedAt);
    }
    forall s, row | RowsFindTheirs(sessions, rows, escrowOf) && s in sessions && row in rows && OriginAt(rows, s, row.postedAt)
      ensures escrowOf(row.ref) == s.escrow
    {
      SessionFoundByTime(sessions, rows, row.postedAt);
      OriginIsRow(rows, s.escrow);
      assert FindsOwn(sessions, rows, row, escrowOf);
      assert FindsOwn(sessions, rows, OriginOf(rows, s.escrow).value, escrowOf);
    }
  }

  /**
   With two escrows posted at the same time, a pass closes and bills the session
   of one because the other is gone: here the session's own escrow is untouched.
   */
  lemma SharedTimeClosesAnotherSession()
    ensures exists s: State, key: Key, answers: Ref -> Answers, now: Time ::
      && key.rows == Some([Row(0, Open, 0, None, Legacy), Row(1, Submitted, 0, None, Legacy)])
      && key.sessions == [Session(7, SessionOpen, 0, 5)] && s.sessions == map[7 := key.sessions[0]]
      && !answers(0).utxo.Missing?
      && SweepKeys(s, [key], Protection({}, {}), answers, false, now).usage == s.usage + [Usage(7, Completed, Some(5))]
  {
    var session := Session(7, SessionOpen, 0, 5);
    var own, other := Row(0, Open, 0, None, Legacy), Row(1, Submitted, 0, None, Legacy);
    var rows := [own, other];
    var key := Key(1, Some(rows), [session]);
    var s := State([], [], map[7 := session], [], []);
    var present := Answers(false, Live(Legacy), false, NoRefusal, NoRefusal, false, false);
    var answers: Ref -> Answers := r => if r == 1 then present.(utxo := Missing) else present;
    var p := Protection({}, {});
    var byTime := SessionsByTime([session], rows);
    assert [session][..0] == [] && SessionsByTime([session][..0], rows) == map[];
    assert OriginOf(rows, 0) == Some(own);
    assert byTime == map[0 := session];
    var now := 100_000;
    assert rows[..1][..0] == [] && rows[..1][0] == own && rows[1] == other;
    assert SweepRow(s, 1, own, byTime, p, answers, false, now) == s;
    assert SweepRows(s, 1, rows[..1], byTime, p, answers, false, now) == s;
    var s' := SweepRow(s, 1, other, byTime, p, answers, false, now);
    assert s'.usage == [] + [Usage(7, Completed, Some(5))];
    assert SweepRows(s, 1, rows, byTime, p, answers, false, now) == s';
    assert [key][..0] == [];
    assert SweepKeys(s, [key], p, answers, false, now) == s';
  }
}

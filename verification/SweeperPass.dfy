/**
 What a whole sweep does for one listed output, told from the output alone: when
 a reclaim, an accept or a refund is sent for it, when it is remembered, and when
 its session ends and with which record.
 */
module SweeperPass {
  import opened Prelude
  import opened Sweeper

  // ----- When each transaction is due -----

  /** Every output is listed once, for one key. */
  ghost predicate ListedOnce(keys: seq<Key>) {
    forall k: nat, n: nat, j: nat, m: nat ::
      RowAt(keys, k, n) && RowAt(keys, j, m) && keys[k].rows.value[n].ref == keys[j].rows.value[m].ref ==> k == j && n == m
  }

  ghost predicate RefsOnce(rows: seq<Row>) {
    forall i, j :: 0 <= i < j < |rows| ==> rows[i].ref != rows[j].ref
  }

  /** The original output of the session is a listed one that was posted at this time. */
  ghost predicate PostedAt(rows: seq<Row>, session: Session, at: Time) {
    exists row :: row in rows && row.ref == session.escrow && row.postedAt == at
  }

  /** The last listed session of this posting time. */
  ghost predicate IsSessionOf(sessions: seq<Session>, rows: seq<Row>, at: Time, session: Session) {
    exists j :: 0 <= j < |sessions| && sessions[j] == session && PostedAt(rows, session, at)
      && forall i :: j < i < |sessions| ==> !PostedAt(rows, sessions[i], at)
  }

  ghost predicate HasSession(sessions: seq<Session>, rows: seq<Row>, at: Time) {
    exists session :: session in sessions && PostedAt(rows, session, at)
  }

  ghost predicate HasEndedSession(sessions: seq<Session>, rows: seq<Row>, at: Time) {
    exists session :: IsSessionOf(sessions, rows, at, session) && session.state == SessionInvalid
  }

  /** The escrow waited 11 minutes, or 35 for a session, and its delivery time is a minute past. */
  ghost predicate MayReclaim(row: Row, inSession: bool, now: Time) {
    && (row.state == Open || row.state == Claimed)
    && now - row.postedAt > (if inSession then 2_100_000 else 660_000)
    && (row.deliverBy.Some? ==> now > row.deliverBy.value + 60_000)
  }

  /** A live new escrow whose agent lost its record: at any time once Submitted, and before a reclaim is due. */
  ghost predicate MayRefund(row: Row, a: Answers, inSession: bool, now: Time) {
    && !a.readFails && a.utxo == Live(Identity) && a.refundApplies
    && (row.state == Submitted || (row.state != OtherState && row.layout == Identity && !MayReclaim(row, inSession, now)))
  }

  /** The receipt check raises no objection; for a session that the gateway stopped it is asked once more. */
  ghost predicate MayAccept(row: Row, a: Answers, endedSession: bool) {
    && row.state == Submitted && !a.readFails && a.utxo.Live? && !(a.utxo.layout == Identity && a.refundApplies)
    && (a.refusal == NoRefusal || (a.refusal == ReceiptNotHeld && endedSession && a.refusalAfterEnd == NoRefusal))
  }

  /** The receipt check objects for good. */
  ghost predicate Refused(row: Row, a: Answers, endedSession: bool) {
    && row.state == Submitted && !a.readFails && a.utxo.Live? && !(a.utxo.layout == Identity && a.refundApplies)
    && (a.refusal == ReceiptWrong || (a.refusal == ReceiptNotHeld && endedSession && a.refusalAfterEnd == ReceiptWrong))
  }

  ghost predicate Gone(row: Row, a: Answers) {
    row.state == Submitted && !a.readFails && a.utxo.Missing?
  }

  /** No receipt is held, so the output is noted as logged and left for a later pass. */
  ghost predicate NotHeld(row: Row, a: Answers, endedSession: bool) {
    && row.state == Submitted && !a.readFails && a.utxo.Live? && !(a.utxo.layout == Identity && a.refundApplies)
    && a.refusal == ReceiptNotHeld && (endedSession ==> a.refusalAfterEnd == ReceiptNotHeld)
  }

  /** The output needs no further look: it is gone, its receipt is wrong, or a sent transaction confirmed or found it gone. */
  ghost predicate IsDone(row: Row, a: Answers, inSession: bool, endedSession: bool, now: Time) {
    || Gone(row, a) || Refused(row, a, endedSession)
    || ((MayReclaim(row, inSession, now) || MayRefund(row, a, inSession, now)) && a.confirms)
    || (MayAccept(row, a, endedSession) && (a.confirms || a.goneAfter))
  }

  // ----- The session of a row -----

  lemma {:induction false} OriginIsListed(rows: seq<Row>, escrow: Ref, row: Row)
    requires RefsOnce(rows) && row in rows && row.ref == escrow
    ensures OriginOf(rows, escrow) == Some(row)
  {
    if rows[0].ref == escrow {
      var i :| 0 <= i < |rows| && rows[i] == row;
    } else {
      assert forall i, j :: 0 <= i < j < |rows[1..]| ==> rows[1..][i] == rows[i + 1] && rows[1..][j] == rows[j + 1];
      assert RefsOnce(rows[1..]);
      OriginIsListed(rows[1..], escrow, row);
    }
  }

  lemma PostedIsOrigin(rows: seq<Row>, session: Session, at: Time)
    requires RefsOnce(rows)
    ensures PostedAt(rows, session, at) <==> OriginAt(rows, session, at)
  {
    OriginIsRow(rows, session.escrow);
    if PostedAt(rows, session, at) {
      var row :| row in rows && row.ref == session.escrow && row.postedAt == at;
      OriginIsListed(rows, session.escrow, row);
    }
  }

  /** The table by posting time finds the last listed session of that time. */
  lemma {:induction false} TableFindsTheSession(sessions: seq<Session>, rows: seq<Row>, at: Time)
    requires RefsOnce(rows)
    ensures var found := SessionAt(SessionsByTime(sessions, rows), at);
      && (found.Some? <==> HasSession(sessions, rows, at))
      && (forall session :: IsSessionOf(sessions, rows, at, session) <==> found == Some(session))
  {
    hide PostedAt;
    if sessions != [] {
      var n := |sessions| - 1;
      var front, last := sessions[..n], sessions[n];
      TableFindsTheSession(front, rows, at);
      PostedIsOrigin(rows, last, at);
      var found := SessionAt(SessionsByTime(sessions, rows), at);
      if PostedAt(rows, last, at) {
        assert found == Some(last) && last in sessions;
        assert IsSessionOf(sessions, rows, at, last);
      } else {
        assert found == SessionAt(SessionsByTime(front, rows), at);
        forall session ensures IsSessionOf(sessions, rows, at, session) <==> IsSessionOf(front, rows, at, session) {
          SameSessionOf(sessions, rows, at, session);
        }
        assert HasSession(sessions, rows, at) <==> HasSession(front, rows, at);
      }
    }
  }

  lemma SameSessionOf(sessions: seq<Session>, rows: seq<Row>, at: Time, session: Session)
    requires sessions != [] && !PostedAt(rows, sessions[|sessions| - 1], at)
    ensures IsSessionOf(sessions, rows, at, session) <==> IsSessionOf(sessions[..|sessions| - 1], rows, at, session)
  {
    hide PostedAt;
    var front := sessions[..|sessions| - 1];
    if IsSessionOf(sessions, rows, at, session) {
      var j :| 0 <= j < |sessions| && sessions[j] == session && PostedAt(rows, session, at)
        && forall i :: j < i < |sessions| ==> !PostedAt(rows, sessions[i], at);
      assert front[j] == session;
    }
    if IsSessionOf(front, rows, at, session) {
      var j :| 0 <= j < |front| && front[j] == session && PostedAt(rows, session, at)
        && forall i :: j < i < |front| ==> !PostedAt(rows, front[i], at);
      assert sessions[j] == session;
      forall i | j < i < |sessions| ensures !PostedAt(rows, sessions[i], at) {
        if i < |front| { assert sessions[i] == front[i]; }
      }
    }
  }

  // ----- One output -----

  /** What the sweeper knows about the session of a row. */
  ghost predicate Knows(byTime: map<Time, Session>, at: Time, inSession: bool, endedSession: bool) {
    var found := SessionAt(byTime, at);
    (inSession <==> found.Some?) && (endedSession <==> found.Some? && found.value.state == SessionInvalid)
  }

  lemma TableKnows(sessions: seq<Session>, rows: seq<Row>, at: Time)
    requires RefsOnce(rows)
    ensures Knows(SessionsByTime(sessions, rows), at, HasSession(sessions, rows, at), HasEndedSession(sessions, rows, at))
  {
    hide SessionsByTime, IsSessionOf, HasSession;
    TableFindsTheSession(sessions, rows, at);
    var found := SessionAt(SessionsByTime(sessions, rows), at);
    if found.Some? { assert IsSessionOf(sessions, rows, at, found.value); }
  }

  /** The decision for an output, told from what is known about it. */
  lemma DecisionIs(row: Row, a: Answers, session: Option<Session>, ticketMode: bool, now: Time)
    ensures var d := Decide(row, a, session, ticketMode, now);
      var ended := session.Some? && session.value.state == SessionInvalid;
      && (d.attempt == Some(Reclaim) <==> MayReclaim(row, session.Some?, now))
      && (d.attempt == Some(RefundRevoked) <==> MayRefund(row, a, session.Some?, now))
      && (d.attempt == Some(Accept) <==> MayAccept(row, a, ended))
      && (d.settled <==> IsDone(row, a, session.Some?, ended, now))
      && (d.unheld <==> NotHeld(row, a, ended))
  {
    hide CloseRefunded;
  }

  lemma ApplyIs(s: State, key: KeyId, row: Row, d: Decision, session: Option<Session>)
    ensures var s' := Apply(s, key, row, d, session);
      && s'.spends == (if d.attempt.Some? then s.spends + [Spend(key, row.ref, d.attempt.value)] else s.spends)
      && s'.settled == (if d.settled then Remember(s.settled, row.ref) else s.settled)
      && s'.unheld == (if d.unheld && row.ref !in s.unheld then Remember(s.unheld, row.ref) else s.unheld)
  {
    hide Remember;
  }

  /** One look at an output sends what is due, remembers what is done, and nothing else. */
  lemma RowSends(s: State, key: KeyId, row: Row, byTime: map<Time, Session>, p: Protection, answers: Ref -> Answers, ticketMode: bool,
                 now: Time, inSession: bool, endedSession: bool)
    requires row.ref !in s.settled && row.ref !in p.refs && now - row.postedAt >= 90_000
    requires Knows(byTime, row.postedAt, inSession, endedSession)
    ensures var s', a := SweepRow(s, key, row, byTime, p, answers, ticketMode, now), answers(row.ref);
      && (MayReclaim(row, inSession, now) ==> s'.spends == s.spends + [Spend(key, row.ref, Reclaim)])
      && (MayRefund(row, a, inSession, now) ==> s'.spends == s.spends + [Spend(key, row.ref, RefundRevoked)])
      && (MayAccept(row, a, endedSession) ==> s'.spends == s.spends + [Spend(key, row.ref, Accept)])
      && (!MayReclaim(row, inSession, now) && !MayRefund(row, a, inSession, now) && !MayAccept(row, a, endedSession) ==> s'.spends == s.spends)
      && s'.settled == (if IsDone(row, a, inSession, endedSession, now) then Remember(s.settled, row.ref) else s.settled)
      && s'.unheld == (if NotHeld(row, a, endedSession) && row.ref !in s.unheld then Remember(s.unheld, row.ref) else s.unheld)
  {
    hide Remember, Decide, Apply, MayReclaim, MayRefund, MayAccept, IsDone, NotHeld;
    var session := SessionAt(byTime, row.postedAt);
    DecisionIs(row, answers(row.ref), session, ticketMode, now);
    var d := Decide(row, answers(row.ref), session, ticketMode, now);
    ApplyIs(s, key, row, d, session);
    match d.attempt {
      case None =>
      case Some(kind) => match kind { case Accept => case Reclaim => case RefundRevoked => }
    }
  }

  /** The transactions sent for one output, in order. */
  function SentFor(spends: seq<Spend>, ref: Ref): seq<Spend> {
    if spends == [] then []
    else
      var last := spends[|spends| - 1];
      SentFor(spends[..|spends| - 1], ref) + (if last.ref == ref then [last] else [])
  }

  lemma SentForOneMore(spends: seq<Spend>, sp: Spend, ref: Ref)
    ensures SentFor(spends + [sp], ref) == SentFor(spends, ref) + (if sp.ref == ref then [sp] else [])
  {
    assert (spends + [sp])[..|spends|] == spends;
  }

  // ----- The other outputs of a pass -----

  /** Whatever another row gets, nothing is sent for this output, and with room in the memory its place there stays. */
  ghost predicate LeavesAlone(s: State, s': State, ref: Ref, looked: nat) {
    && SentFor(s'.spends, ref) == SentFor(s.spends, ref)
    && |s'.settled| <= |s.settled| + looked
    && (ref !in s.settled ==> ref !in s'.settled)
    && (|s.settled| + looked <= 5_000 && ref in s.settled ==> ref in s'.settled)
  }

  lemma LeavesAloneTransitive(a: State, b: State, c: State, ref: Ref, m: nat, n: nat)
    requires LeavesAlone(a, b, ref, m) && LeavesAlone(b, c, ref, n)
    ensures LeavesAlone(a, c, ref, m + n)
  {
  }

  lemma RememberOther(refs: seq<Ref>, other: Ref, ref: Ref)
    requires other != ref
    ensures |Remember(refs, other)| <= |refs| + 1
    ensures ref !in refs ==> ref !in Remember(refs, other)
    ensures |refs| + 1 <= 5_000 && ref in refs ==> ref in Remember(refs, other)
  {
  }

  lemma OtherRowLeavesAlone(s: State, key: KeyId, row: Row, byTime: map<Time, Session>, p: Protection, answers: Ref -> Answers, ticketMode: bool,
                            now: Time, ref: Ref)
    requires row.ref != ref
    ensures LeavesAlone(s, SweepRow(s, key, row, byTime, p, answers, ticketMode, now), ref, 1)
  {
    hide Decide, Apply, Remember, SentFor;
    var session := SessionAt(byTime, row.postedAt);
    var d := Decide(row, answers(row.ref), session, ticketMode, now);
    ApplyIs(s, key, row, d, session);
    RememberOther(s.settled, row.ref, ref);
    if d.attempt.Some? { SentForOneMore(s.spends, Spend(key, row.ref, d.attempt.value), ref); }
  }

  lemma {:induction false} OtherRowsLeaveAlone(s: State, key: KeyId, rows: seq<Row>, byTime: map<Time, Session>, p: Protection,
                                               answers: Ref -> Answers, ticketMode: bool, now: Time, ref: Ref)
    requires forall row :: row in rows ==> row.ref != ref
    ensures LeavesAlone(s, SweepRows(s, key, rows, byTime, p, answers, ticketMode, now), ref, |rows|)
    decreases |rows|
  {
    hide SweepRow, LeavesAlone;
    if rows == [] {
      NothingLeavesAlone(s, ref);
    } else {
      var n := |rows| - 1;
      OtherRowsLeaveAlone(s, key, rows[..n], byTime, p, answers, ticketMode, now, ref);
      var mid := SweepRows(s, key, rows[..n], byTime, p, answers, ticketMode, now);
      OtherRowLeavesAlone(mid, key, rows[n], byTime, p, answers, ticketMode, now, ref);
      LeavesAloneTransitive(s, mid, SweepRow(mid, key, rows[n], byTime, p, answers, ticketMode, now), ref, n, 1);
    }
  }

  lemma NothingLeavesAlone(s: State, ref: Ref)
    ensures LeavesAlone(s, s, ref, 0)
  {
  }

  /** The number of rows that the indexer listed. */
  function RowCount(keys: seq<Key>): nat {
    if keys == [] then 0
    else
      var last := keys[|keys| - 1];
      RowCount(keys[..|keys| - 1]) + (if last.rows.Some? then |last.rows.value| else 0)
  }

  lemma MoreRoomLeavesAlone(s: State, s': State, ref: Ref, m: nat, n: nat)
    requires LeavesAlone(s, s', ref, m) && m <= n
    ensures LeavesAlone(s, s', ref, n)
  {
  }

  ghost predicate NotListed(keys: seq<Key>, ref: Ref) {
    forall k: nat, n: nat :: RowAt(keys, k, n) ==> keys[k].rows.value[n].ref != ref
  }

  lemma {:induction false} OtherKeysLeaveAlone(s: State, keys: seq<Key>, p: Protection, answers: Ref -> Answers, ticketMode: bool, now: Time, ref: Ref)
    requires NotListed(keys, ref)
    ensures LeavesAlone(s, SweepKeys(s, keys, p, answers, ticketMode, now), ref, RowCount(keys))
    decreases |keys|
  {
    hide SweepRows, LeavesAlone, SessionsByTime;
    NothingLeavesAlone(s, ref);
    if keys != [] {
      var front, key := keys[..|keys| - 1], keys[|keys| - 1];
      forall k: nat, n: nat | RowAt(front, k, n) ensures front[k].rows.value[n].ref != ref {
        assert RowAt(keys, k, n);
      }
      OtherKeysLeaveAlone(s, front, p, answers, ticketMode, now, ref);
      var mid := SweepKeys(s, front, p, answers, ticketMode, now);
      NothingLeavesAlone(mid, ref);
      if key.rows.Some? {
        forall row | row in key.rows.value ensures row.ref != ref {
          var n: nat :| n < |key.rows.value| && key.rows.value[n] == row;
          assert RowAt(keys, |front|, n);
        }
        OtherRowsLeaveAlone(mid, key.id, key.rows.value, SessionsByTime(key.sessions, key.rows.value), p, answers, ticketMode, now, ref);
        MoreRoomLeavesAlone(mid, mid, ref, 0, |key.rows.value|);
        LeavesAloneTransitive(s, mid, SweepKey(mid, key, p, answers, ticketMode, now), ref, RowCount(front), |key.rows.value|);
      } else {
        LeavesAloneTransitive(s, mid, mid, ref, RowCount(front), 0);
      }
    }
  }

  // ----- A pass around one output -----

  lemma {:induction false} RowsApart(s: State, key: KeyId, a: seq<Row>, b: seq<Row>, byTime: map<Time, Session>, p: Protection,
                                     answers: Ref -> Answers, ticketMode: bool, now: Time)
    ensures SweepRows(s, key, a + b, byTime, p, answers, ticketMode, now)
      == SweepRows(SweepRows(s, key, a, byTime, p, answers, ticketMode, now), key, b, byTime, p, answers, ticketMode, now)
    decreases |b|
  {
    hide SweepRow;
    if b == [] {
      assert a + b == a;
    } else {
      assert (a + b)[..|a + b| - 1] == a + b[..|b| - 1];
      RowsApart(s, key, a, b[..|b| - 1], byTime, p, answers, ticketMode, now);
    }
  }

  lemma {:induction false} KeysApart(s: State, a: seq<Key>, b: seq<Key>, p: Protection, answers: Ref -> Answers, ticketMode: bool, now: Time)
    ensures SweepKeys(s, a + b, p, answers, ticketMode, now)
      == SweepKeys(SweepKeys(s, a, p, answers, ticketMode, now), b, p, answers, ticketMode, now)
    ensures RowCount(a + b) == RowCount(a) + RowCount(b)
    decreases |b|
  {
    hide SweepKey;
    if b == [] {
      assert a + b == a;
    } else {
      assert (a + b)[..|a + b| - 1] == a + b[..|b| - 1];
      KeysApart(s, a, b[..|b| - 1], p, answers, ticketMode, now);
    }
  }

  /** One key's row taken alone. */
  lemma OneRow(s: State, key: KeyId, row: Row, byTime: map<Time, Session>, p: Protection, answers: Ref -> Answers, ticketMode: bool, now: Time)
    ensures SweepRows(s, key, [row], byTime, p, answers, ticketMode, now) == SweepRow(s, key, row, byTime, p, answers, ticketMode, now)
  {
    hide SweepRow;
    assert [row][..0] == [];
  }

  lemma OneKey(s: State, key: Key, p: Protection, answers: Ref -> Answers, ticketMode: bool, now: Time)
    ensures SweepKeys(s, [key], p, answers, ticketMode, now) == SweepKey(s, key, p, answers, ticketMode, now)
    ensures RowCount([key]) == if key.rows.Some? then |key.rows.value| else 0
  {
    hide SweepKey;
    assert [key][..0] == [];
  }

  /** The rows of one key around its row `n`: the others leave that output alone, and sessions only close. */
  lemma RowsAround(s: State, key: Key, n: nat, p: Protection, answers: Ref -> Answers, ticketMode: bool, now: Time)
    returns (before: State)
    requires key.rows.Some? && RefsOnce(key.rows.value) && n < |key.rows.value| && key.id !in p.keys
    ensures var rows, row := key.rows.value, key.rows.value[n];
      var after := SweepRow(before, key.id, row, SessionsByTime(key.sessions, rows), p, answers, ticketMode, now);
      && LeavesAlone(s, before, row.ref, n) && ClosesOnce(s, before)
      && LeavesAlone(after, SweepKey(s, key, p, answers, ticketMode, now), row.ref, |rows| - n - 1)
      && ClosesOnce(after, SweepKey(s, key, p, answers, ticketMode, now))
  {
    hide SweepRows, SweepRow, SessionsByTime, ClosesOnce, LeavesAlone;
    var rows := key.rows.value;
    var row, byTime := rows[n], SessionsByTime(key.sessions, rows);
    before := SweepRows(s, key.id, rows[..n], byTime, p, answers, ticketMode, now);
    var after := SweepRow(before, key.id, row, byTime, p, answers, ticketMode, now);
    RowsApart(s, key.id, rows[..n], [row], byTime, p, answers, ticketMode, now);
    OneRow(before, key.id, row, byTime, p, answers, ticketMode, now);
    RowsApart(s, key.id, rows[..n] + [row], rows[n + 1..], byTime, p, answers, ticketMode, now);
    assert rows[..n] + [row] + rows[n + 1..] == rows;
    OtherRowsLeaveAlone(s, key.id, rows[..n], byTime, p, answers, ticketMode, now, row.ref);
    OtherRowsLeaveAlone(after, key.id, rows[n + 1..], byTime, p, answers, ticketMode, now, row.ref);
    RowsCloseOnce(s, key.id, rows[..n], byTime, p, answers, ticketMode, now);
    RowsCloseOnce(after, key.id, rows[n + 1..], byTime, p, answers, ticketMode, now);
  }

  lemma RowsOfKeyOnce(keys: seq<Key>, k: nat)
    requires ListedOnce(keys) && k < |keys| && keys[k].rows.Some?
    ensures RefsOnce(keys[k].rows.value)
  {
    forall i, j | 0 <= i < j < |keys[k].rows.value| ensures keys[k].rows.value[i].ref != keys[k].rows.value[j].ref {
      assert RowAt(keys, k, i) && RowAt(keys, k, j);
    }
  }

  /** The other keys list other outputs. */
  lemma OtherKeysListOthers(keys: seq<Key>, k: nat, n: nat)
    requires ListedOnce(keys) && RowAt(keys, k, n)
    ensures NotListed(keys[..k], keys[k].rows.value[n].ref) && NotListed(keys[k + 1..], keys[k].rows.value[n].ref)
  {
    var front, rest := keys[..k], keys[k + 1..];
    forall j: nat, m: nat | RowAt(front, j, m) ensures front[j].rows.value[m].ref != keys[k].rows.value[n].ref {
      assert RowAt(keys, j, m);
    }
    forall j: nat, m: nat | RowAt(rest, j, m) ensures rest[j].rows.value[m].ref != keys[k].rows.value[n].ref {
      assert rest[j] == keys[k + 1 + j] && RowAt(keys, k + 1 + j, m);
    }
  }

  /** A whole pass around one listed output of a key that is not protected. */
  lemma PassAround(s: State, keys: seq<Key>, k: nat, n: nat, p: Protection, answers: Ref -> Answers, ticketMode: bool, now: Time)
    returns (before: State, earlier: nat, later: nat)
    requires ListedOnce(keys) && RowAt(keys, k, n) && keys[k].id !in p.keys
    ensures earlier + 1 + later <= RowCount(keys)
    ensures var rows, row := keys[k].rows.value, keys[k].rows.value[n];
      var after := SweepRow(before, keys[k].id, row, SessionsByTime(keys[k].sessions, rows), p, answers, ticketMode, now);
      && LeavesAlone(s, before, row.ref, earlier) && ClosesOnce(s, before)
      && LeavesAlone(after, SweepKeys(s, keys, p, answers, ticketMode, now), row.ref, later)
      && ClosesOnce(after, SweepKeys(s, keys, p, answers, ticketMode, now))
  {
    hide SweepKeys, SweepKey, SweepRow, SessionsByTime, ClosesOnce, LeavesAlone, ListedOnce, NotListed, RowCount;
    var key, row := keys[k], keys[k].rows.value[n];
    var first := SweepKeys(s, keys[..k], p, answers, ticketMode, now);
    var second := SweepKey(first, key, p, answers, ticketMode, now);
    KeysApart(s, keys[..k], [key], p, answers, ticketMode, now);
    OneKey(first, key, p, answers, ticketMode, now);
    KeysApart(s, keys[..k] + [key], keys[k + 1..], p, answers, ticketMode, now);
    assert keys[..k] + [key] + keys[k + 1..] == keys;
    OtherKeysListOthers(keys, k, n);
    RowsOfKeyOnce(keys, k);
    OtherKeysLeaveAlone(s, keys[..k], p, answers, ticketMode, now, row.ref);
    OtherKeysLeaveAlone(second, keys[k + 1..], p, answers, ticketMode, now, row.ref);
    SessionsCloseOnce(s, keys[..k], p, answers, ticketMode, now);
    SessionsCloseOnce(second, keys[k + 1..], p, answers, ticketMode, now);
    before := RowsAround(first, key, n, p, answers, ticketMode, now);
    var after := SweepRow(before, key.id, row, SessionsByTime(key.sessions, key.rows.value), p, answers, ticketMode, now);
    earlier, later := RowCount(keys[..k]) + n, |key.rows.value| - n - 1 + RowCount(keys[k + 1..]);
    LeavesAloneTransitive(s, first, before, row.ref, RowCount(keys[..k]), n);
    ClosesOnceTransitive(s, first, before);
    LeavesAloneTransitive(after, second, SweepKeys(s, keys, p, answers, ticketMode, now), row.ref, |key.rows.value| - n - 1, RowCount(keys[k + 1..]));
    ClosesOnceTransitive(after, second, SweepKeys(s, keys, p, answers, ticketMode, now));
  }

  // ----- What a pass does for one output -----

  /** The sweeper looks at an output that is unprotected, not remembered and 90 seconds old. */
  predicate LooksAt(s: State, key: KeyId, row: Row, p: Protection, now: Time) {
    key !in p.keys && row.ref !in p.refs && row.ref !in s.settled && now - row.postedAt >= 90_000
  }

  /** The memory has room for every listed output, so a pass forgets none. */
  ghost predicate Room(s: State, keys: seq<Key>) {
    |s.settled| + RowCount(keys) <= 5_000
  }

  lemma RowSkipped(s: State, before: State, earlier: nat, key: KeyId, row: Row, byTime: map<Time, Session>, p: Protection, answers: Ref -> Answers,
                   ticketMode: bool, now: Time)
    requires key !in p.keys && !LooksAt(s, key, row, p, now) && LeavesAlone(s, before, row.ref, earlier)
    requires row.ref in s.settled ==> |s.settled| + earlier <= 5_000
    ensures SweepRow(before, key, row, byTime, p, answers, ticketMode, now) == before
  {
  }

  lemma ProtectedKeyLeavesAlone(s: State, keys: seq<Key>, k: nat, n: nat, p: Protection, answers: Ref -> Answers, ticketMode: bool, now: Time)
    requires ListedOnce(keys) && RowAt(keys, k, n) && keys[k].id in p.keys
    ensures LeavesAlone(s, SweepKeys(s, keys, p, answers, ticketMode, now), keys[k].rows.value[n].ref, RowCount(keys))
  {
    hide SweepKeys, ClosesOnce, LeavesAlone, ListedOnce, NotListed, RowCount;
    var key, ref := keys[k], keys[k].rows.value[n].ref;
    var first := SweepKeys(s, keys[..k], p, answers, ticketMode, now);
    KeysApart(s, keys[..k], [key], p, answers, ticketMode, now);
    OneKey(first, key, p, answers, ticketMode, now);
    KeysApart(s, keys[..k] + [key], keys[k + 1..], p, answers, ticketMode, now);
    assert keys[..k] + [key] + keys[k + 1..] == keys;
    OtherKeysListOthers(keys, k, n);
    OtherKeysLeaveAlone(s, keys[..k], p, answers, ticketMode, now, ref);
    OtherKeysLeaveAlone(first, keys[k + 1..], p, answers, ticketMode, now, ref);
    var s' := SweepKeys(s, keys, p, answers, ticketMode, now);
    LeavesAloneTransitive(s, first, s', ref, RowCount(keys[..k]), RowCount(keys[k + 1..]));
    MoreRoomLeavesAlone(s, s', ref, RowCount(keys[..k]) + RowCount(keys[k + 1..]), RowCount(keys));
  }

  /**
   Over a whole pass, for every listed output: a Reclaim is sent exactly when the
   sweeper looks at it, it is Open or Claimed, and both its waiting time, the longer
   one in a session, and its delivery time are over; a RefundRevoked and an Accept
   exactly in their cases; one transaction at most.
   */
  lemma PassSendsExactly(s: State, keys: seq<Key>, k: nat, n: nat, p: Protection, answers: Ref -> Answers, ticketMode: bool, now: Time)
    requires ListedOnce(keys) && RowAt(keys, k, n)
    ensures var key, row := keys[k], keys[k].rows.value[n];
      var s', a, looks := SweepKeys(s, keys, p, answers, ticketMode, now), answers(row.ref), LooksAt(s, key.id, row, p, now);
      var inSession := HasSession(key.sessions, key.rows.value, row.postedAt);
      var ended := HasEndedSession(key.sessions, key.rows.value, row.postedAt);
      var before, sent := SentFor(s.spends, row.ref), SentFor(s'.spends, row.ref);
      && (looks && MayReclaim(row, inSession, now) ==> sent == before + [Spend(key.id, row.ref, Reclaim)])
      && (looks && MayRefund(row, a, inSession, now) ==> sent == before + [Spend(key.id, row.ref, RefundRevoked)])
      && (looks && MayAccept(row, a, ended) ==> sent == before + [Spend(key.id, row.ref, Accept)])
      && (looks && !MayReclaim(row, inSession, now) && !MayRefund(row, a, inSession, now) && !MayAccept(row, a, ended) ==> sent == before)
      && (!looks && (row.ref !in s.settled || Room(s, keys)) ==> sent == before)
  {
    hide SweepKeys, SweepRow, SessionsByTime, ListedOnce, RowCount, MayReclaim, MayRefund, MayAccept, IsDone, HasSession, HasEndedSession, SentFor;
    var key, row := keys[k], keys[k].rows.value[n];
    if key.id in p.keys {
      ProtectedKeyLeavesAlone(s, keys, k, n, p, answers, ticketMode, now);
    } else {
      var byTime := SessionsByTime(key.sessions, key.rows.value);
      var before, earlier, later := PassAround(s, keys, k, n, p, answers, ticketMode, now);
      RowsOfKeyOnce(keys, k);
      TableKnows(key.sessions, key.rows.value, row.postedAt);
      if LooksAt(s, key.id, row, p, now) {
        var inSession, ended := HasSession(key.sessions, key.rows.value, row.postedAt), HasEndedSession(key.sessions, key.rows.value, row.postedAt);
        RowSends(before, key.id, row, byTime, p, answers, ticketMode, now, inSession, ended);
        SentForOneMore(before.spends, Spend(key.id, row.ref, Reclaim), row.ref);
        SentForOneMore(before.spends, Spend(key.id, row.ref, RefundRevoked), row.ref);
        SentForOneMore(before.spends, Spend(key.id, row.ref, Accept), row.ref);
      } else if row.ref !in s.settled || Room(s, keys) {
        RowSkipped(s, before, earlier, key.id, row, byTime, p, answers, ticketMode, now);
      }
    }
  }

  /**
   With room in the memory, a pass remembers exactly the outputs it remembered
   before and those it looked at that are gone, whose receipt is wrong, or whose
   sent transaction confirmed.
   */
  lemma PassRemembersExactly(s: State, keys: seq<Key>, k: nat, n: nat, p: Protection, answers: Ref -> Answers, ticketMode: bool, now: Time)
    requires ListedOnce(keys) && RowAt(keys, k, n) && Room(s, keys)
    ensures var key, row := keys[k], keys[k].rows.value[n];
      var inSession := HasSession(key.sessions, key.rows.value, row.postedAt);
      var ended := HasEndedSession(key.sessions, key.rows.value, row.postedAt);
      row.ref in SweepKeys(s, keys, p, answers, ticketMode, now).settled <==>
        row.ref in s.settled || (LooksAt(s, key.id, row, p, now) && IsDone(row, answers(row.ref), inSession, ended, now))
  {
    hide SweepKeys, SweepRow, SessionsByTime, ListedOnce, RowCount, MayReclaim, MayRefund, MayAccept, IsDone, HasSession, HasEndedSession, SentFor,
         Remember;
    var key, row := keys[k], keys[k].rows.value[n];
    if key.id in p.keys {
      ProtectedKeyLeavesAlone(s, keys, k, n, p, answers, ticketMode, now);
    } else {
      var byTime := SessionsByTime(key.sessions, key.rows.value);
      var before, earlier, later := PassAround(s, keys, k, n, p, answers, ticketMode, now);
      RowsOfKeyOnce(keys, k);
      TableKnows(key.sessions, key.rows.value, row.postedAt);
      if LooksAt(s, key.id, row, p, now) {
        var inSession, ended := HasSession(key.sessions, key.rows.value, row.postedAt), HasEndedSession(key.sessions, key.rows.value, row.postedAt);
        RowSends(before, key.id, row, byTime, p, answers, ticketMode, now, inSession, ended);
        RememberOwn(before.settled, row.ref);
      } else {
        RowSkipped(s, before, earlier, key.id, row, byTime, p, answers, ticketMode, now);
      }
    }
  }

  lemma RememberOwn(refs: seq<Ref>, ref: Ref)
    ensures |Remember(refs, ref)| <= |refs| + 1
    ensures |refs| + 1 <= 5_000 ==> ref in Remember(refs, ref)
  {
  }

  // ----- How a session ends -----

  /** How the escrow of the row turned out, as far as the answers of this look tell. */
  datatype Turn = Paid | WentBack | WrongReceipt | Unsettled

  ghost function TurnOf(row: Row, a: Answers, inSession: bool, ended: bool, now: Time): Turn {
    if Gone(row, a) || (MayAccept(row, a, ended) && (a.confirms || a.goneAfter)) then Paid
    else if (MayReclaim(row, inSession, now) || MayRefund(row, a, inSession, now)) && a.confirms then WentBack
    else if Refused(row, a, ended) then WrongReceipt
    else Unsettled
  }

  /** A ticket that went back does not end a session that is still open. */
  ghost predicate Ends(turn: Turn, row: Row, session: Session, ticketMode: bool) {
    match turn
    case Paid => true
    case WrongReceipt => true
    case WentBack => !(ticketMode && row.state == Open && session.state == SessionOpen)
    case Unsettled => false
  }

  lemma ClosesIs(row: Row, a: Answers, session: Session, ticketMode: bool, now: Time)
    ensures var d := Decide(row, a, Some(session), ticketMode, now);
      var turn := TurnOf(row, a, true, session.state == SessionInvalid, now);
      if !Ends(turn, row, session, ticketMode) then d.close == None
      else d.close == Some(match turn case Paid => (Completed, true) case WrongReceipt => (Failed, false) case _ => (Returned, false))
  {
  }

  /**
   One look at an output of a session: the session closes exactly when its escrow
   was paid, refused for good, or went back while no live ticket keeps it open; and
   it closes once, with one record, which bills the price exactly when it was paid.
   */
  lemma RowEndsSession(s: State, key: KeyId, row: Row, byTime: map<Time, Session>, p: Protection, answers: Ref -> Answers, ticketMode: bool,
                       now: Time, session: Session)
    requires row.ref !in s.settled && row.ref !in p.refs && now - row.postedAt >= 90_000
    requires SessionAt(byTime, row.postedAt) == Some(session)
    ensures var s' := SweepRow(s, key, row, byTime, p, answers, ticketMode, now);
      var turn := TurnOf(row, answers(row.ref), true, session.state == SessionInvalid, now);
      if Ends(turn, row, session, ticketMode) && session.id in s.sessions && s.sessions[session.id].state != SessionClosed then
        && s'.sessions == s.sessions[session.id := s.sessions[session.id].(state := SessionClosed)]
        && s'.usage == s.usage + [Usage(session.id, if turn.Paid? then Completed else if turn.WrongReceipt? then Failed else Returned,
                                        if turn.Paid? then Some(session.price) else None)]
      else s'.sessions == s.sessions && s'.usage == s.usage
  {
    hide Decide, TurnOf, Ends, Remember;
    ClosesIs(row, answers(row.ref), session, ticketMode, now);
  }

  /** Over a whole pass: the session of an output that ends it is closed afterwards, with one record if it was not closed before. */
  lemma PassEndsSessions(s: State, keys: seq<Key>, k: nat, n: nat, p: Protection, answers: Ref -> Answers, ticketMode: bool, now: Time, session: Session)
    requires ListedOnce(keys) && RowAt(keys, k, n) && LooksAt(s, keys[k].id, keys[k].rows.value[n], p, now)
    requires IsSessionOf(keys[k].sessions, keys[k].rows.value, keys[k].rows.value[n].postedAt, session) && session.id in s.sessions
    requires var row := keys[k].rows.value[n];
      Ends(TurnOf(row, answers(row.ref), true, session.state == SessionInvalid, now), row, session, ticketMode)
    ensures var s' := SweepKeys(s, keys, p, answers, ticketMode, now);
      && session.id in s'.sessions && s'.sessions[session.id].state == SessionClosed && s.usage <= s'.usage
      && Records(s'.usage[|s.usage|..], session.id) == if s.sessions[session.id].state == SessionClosed then 0 else 1
  {
    hide SweepKeys, SweepRow, SessionsByTime, ListedOnce, RowCount, TurnOf, Ends, IsSessionOf, Records, SentFor;
    var key, row := keys[k], keys[k].rows.value[n];
    var byTime := SessionsByTime(key.sessions, key.rows.value);
    var before, earlier, later := PassAround(s, keys, k, n, p, answers, ticketMode, now);
    RowsOfKeyOnce(keys, k);
    TableFindsTheSession(key.sessions, key.rows.value, row.postedAt);
    RowEndsSession(before, key.id, row, byTime, p, answers, ticketMode, now, session);
    SessionsCloseOnce(s, keys, p, answers, ticketMode, now);
  }
}

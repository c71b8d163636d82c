/**
 What the sweeper's closes and bills say about the chain. A row lists one output of
 an escrow; the answers that the sweeper acts on are tied to what blocks did to
 that escrow, and a bill is right when the escrow paid the supplier.
 */
module SweeperBilling {
  import opened Prelude
  import R = EscrowRecovery
  import ES = EscrowSafety
  import opened Sweeper

  /** The n-th output of an escrow, which has its original output first. */
  datatype Place = Place(escrow: Ref, n: nat)

  predicate IsPlace(c: R.Chain, p: Place) {
    p.escrow in c.escrows && p.n < |c.escrows[p.escrow]| && c.escrows[p.escrow][p.n].Becomes?
  }

  /** Every block did to an escrow what its validator allows. */
  ghost predicate Lawful(c: R.Chain) {
    forall ref, i :: ref in c.escrows && 0 < i < |c.escrows[ref]| ==> R.CanFollow(c.escrows[ref][i - 1], c.escrows[ref][i])
  }

  predicate SameState(state: RowState, on: R.EscrowState) {
    match state
    case Open => on == R.Open
    case Claimed => on == R.Claimed
    case Submitted => on == R.Submitted
    case OtherState => true
  }

  function LayoutOf(datum: R.Datum): Layout {
    if datum.layout == R.Identity then Layout.Identity else Layout.Legacy
  }

  /** The indexer's row describes this output. */
  predicate Lists(c: R.Chain, row: Row, p: Place) {
    IsPlace(c, p)
    && var datum := c.escrows[p.escrow][p.n].datum;
       SameState(row.state, datum.state) && row.layout == LayoutOf(datum)
  }

  predicate Gone(c: R.Chain, p: Place) {
    IsPlace(c, p) && p.n + 1 < |c.escrows[p.escrow]|
  }

  predicate EndedAs(c: R.Chain, p: Place, fate: R.Fate) {
    Gone(c, p) && c.escrows[p.escrow][p.n + 1].Ends? && c.escrows[p.escrow][p.n + 1].fate == fate
  }

  function FateOf(kind: Kind): R.Fate {
    match kind
    case Accept => R.Accepted
    case Reclaim => R.Reclaimed
    case RefundRevoked => R.Fate.RefundRevoked
  }

  /** The answers are true of a chain that contains whatever they saw. */
  predicate Truthful(c: R.Chain, row: Row, a: Answers, p: Place, attempt: Option<Kind>) {
    && (!a.readFails && a.utxo.Missing? ==> Gone(c, p))
    && (a.utxo.Live? ==> a.utxo.layout == row.layout)
    && (attempt.Some? && a.confirms ==> EndedAs(c, p, FateOf(attempt.value)))
    && (a.goneAfter ==> Gone(c, p))
  }

  // ----- Every reachable chain is lawful -----

  lemma MoveKeepsLawful(w: R.World, m: R.ChainMove, w': R.World)
    requires Lawful(w.chain) && R.ChainStep(w, m, w')
    ensures Lawful(w'.chain)
  {
    hide R.CanFollow;
  }

  lemma StepKeepsLawful(w: R.World, step: R.Step, w': R.World)
    requires Lawful(w.chain) && R.Next(w, step, w')
    ensures Lawful(w'.chain)
  {
    hide Lawful, R.ChainStep, R.Lineage, R.SeesLive, R.OwnEscrow, R.ReceiptMatches;
    if step.OfChain? {
      MoveKeepsLawful(w, step.c, w');
    }
  }

  lemma {:induction false} RunIsLawful(run: seq<R.World>, i: nat)
    requires ES.Run(run) && i < |run|
    ensures Lawful(run[i].chain)
  {
    hide R.Next, Lawful, R.Initial;
    if i == 0 {
      FirstIsLawful(run[0]);
    } else {
      RunIsLawful(run, i - 1);
      assert ES.Follows(run[i - 1], run[i]);
      var step :| R.Next(run[i - 1], step, run[i]);
      StepKeepsLawful(run[i - 1], step, run[i]);
    }
  }

  lemma FirstIsLawful(w: R.World)
    requires R.Initial(w)
    ensures Lawful(w.chain)
  {
  }

  // ----- One output -----

  /** Nothing follows an end. */
  lemma EndsAreLast(c: R.Chain)
    requires Lawful(c)
    ensures forall ref, i :: ref in c.escrows && 0 <= i < |c.escrows[ref]| - 1 ==> c.escrows[ref][i].Becomes?
  {
    forall ref, i | ref in c.escrows && 0 <= i < |c.escrows[ref]| - 1 ensures c.escrows[ref][i].Becomes? {
      assert R.CanFollow(c.escrows[ref][i + 1 - 1], c.escrows[ref][i + 1]);
    }
  }

  /** Once an escrow has ended, that end is its fate. */
  lemma EndIsFate(c: R.Chain, p: Place, fate: R.Fate)
    requires Lawful(c) && EndedAs(c, p, fate)
    ensures R.FateIs(c, p.escrow, R.PaysOut(fate)) && !R.FateIs(c, p.escrow, !R.PaysOut(fate))
  {
    hide Lawful;
    EndsAreLast(c);
  }

  /** What a Submitted output that is gone became. */
  lemma SubmittedEnds(c: R.Chain, row: Row, p: Place)
    requires Lawful(c) && Lists(c, row, p) && row.state == Submitted && Gone(c, p)
    ensures EndedAs(c, p, R.Accepted) || EndedAs(c, p, R.Released) || EndedAs(c, p, R.Fate.RefundRevoked)
    ensures row.layout == Layout.Legacy ==> !EndedAs(c, p, R.Fate.RefundRevoked)
  {
    var events := c.escrows[p.escrow];
    assert R.CanFollow(events[p.n], events[p.n + 1]);
  }

  /**
   What one decision records is what the chain did: a returned session's escrow
   went back to the buyer, a billed session's escrow is gone and paid the supplier
   exactly when no RefundRevoked took it, and an output is never looked at again
   only when it is gone or its receipt was refused.
   */
  lemma ClosesSayWhatHappened(c: R.Chain, row: Row, a: Answers, session: Option<Session>, ticketMode: bool, now: Time, p: Place)
    requires Lawful(c) && Lists(c, row, p) && Truthful(c, row, a, p, Decide(row, a, session, ticketMode, now).attempt)
    ensures var d := Decide(row, a, session, ticketMode, now);
      && (d.close == Some((Completed, true)) ==>
            row.state == Submitted && Gone(c, p) && (R.FateIs(c, p.escrow, true) <==> !EndedAs(c, p, R.Fate.RefundRevoked)))
      && (d.close == Some((Returned, false)) ==> R.FateIs(c, p.escrow, false))
      && (d.settled ==> Gone(c, p) || d.close == Some((Failed, false)))
  {
    hide ReclaimDue, R.FateIs, Lawful, Lists, EndedAs;
    var d := Decide(row, a, session, ticketMode, now);
    if d.attempt.Some? && a.confirms {
      EndIsFate(c, p, FateOf(d.attempt.value));
      EndedIsGone(c, p, FateOf(d.attempt.value));
    }
    if d.close == Some((Completed, true)) {
      SubmittedEnds(c, row, p);
      if EndedAs(c, p, R.Accepted) { EndIsFate(c, p, R.Accepted); }
      if EndedAs(c, p, R.Released) { EndIsFate(c, p, R.Released); }
      if EndedAs(c, p, R.Fate.RefundRevoked) { EndIsFate(c, p, R.Fate.RefundRevoked); }
      OneEnd(c, p);
    }
  }

  lemma EndedIsGone(c: R.Chain, p: Place, fate: R.Fate)
    requires EndedAs(c, p, fate)
    ensures Gone(c, p)
  {
  }

  lemma OneEnd(c: R.Chain, p: Place)
    ensures forall f, g :: EndedAs(c, p, f) && EndedAs(c, p, g) ==> f == g
  {
  }

  /** On every lawful chain on which the answers are true, the escrow paid the supplier. */
  ghost predicate BillIsRight(row: Row, a: Answers, attempt: Option<Kind>) {
    forall c, p :: Lawful(c) && Lists(c, row, p) && Truthful(c, row, a, p, attempt) ==> R.FateIs(c, p.escrow, true)
  }

  /**
   A bill follows from what the sweeper knows exactly for a legacy escrow, or when
   the sweeper's own Accept confirmed. For a new escrow whose output is just gone
   it does not: a refund can have taken it.
   */
  lemma BillIsRightExactly(row: Row, a: Answers, session: Option<Session>, ticketMode: bool, now: Time)
    requires Decide(row, a, session, ticketMode, now).close == Some((Completed, true))
    requires a.utxo.Live? ==> a.utxo.layout == row.layout
    ensures var attempt := Decide(row, a, session, ticketMode, now).attempt;
      BillIsRight(row, a, attempt) <==> row.layout == Layout.Legacy || (attempt.Some? && a.confirms)
  {
    hide ReclaimDue, R.FateIs;
    var attempt := Decide(row, a, session, ticketMode, now).attempt;
    if row.layout == Layout.Legacy || (attempt.Some? && a.confirms) {
      forall c, p | Lawful(c) && Lists(c, row, p) && Truthful(c, row, a, p, attempt) ensures R.FateIs(c, p.escrow, true) {
        hide Lawful, Lists;
        ClosesSayWhatHappened(c, row, a, session, ticketMode, now, p);
        SubmittedEnds(c, row, p);
        OneEnd(c, p);
      }
    } else {
      RefundDefeatsTheBill(row, a, attempt);
    }
  }

  lemma RefundDefeatsTheBill(row: Row, a: Answers, attempt: Option<Kind>)
    requires row.state == Submitted && row.layout == Layout.Identity && !(attempt.Some? && a.confirms)
    requires a.utxo.Live? ==> a.utxo.layout == row.layout
    ensures !BillIsRight(row, a, attempt)
  {
    var c := RefundedChain();
    hide Lawful;
    assert Truthful(c, row, a, Place(0, 2), attempt);
    assert Lists(c, row, Place(0, 2));
    EndIsFate(c, Place(0, 2), R.Fate.RefundRevoked);
  }

  const AGREED := R.Datum(R.Identity, R.Open, 1, 2, 0, None)
  const SUBMITTED := [
    R.Becomes(1, AGREED), R.Becomes(2, AGREED.(state := R.Claimed)), R.Becomes(3, AGREED.(state := R.Submitted))]

  /** A new escrow that was submitted and then went back to the buyer. */
  lemma RefundedChain() returns (c: R.Chain)
    ensures c == R.Chain(4, map[0 := SUBMITTED + [R.Ends(4, R.Fate.RefundRevoked)]])
    ensures Lawful(c) && IsPlace(c, Place(0, 2)) && EndedAs(c, Place(0, 2), R.Fate.RefundRevoked)
  {
    c := R.Chain(4, map[0 := SUBMITTED + [R.Ends(4, R.Fate.RefundRevoked)]]);
  }

  // ----- A whole pass -----

  function Found(key: Key, row: Row): Option<Session>
    requires key.rows.Some?
  {
    SessionAt(SessionsByTime(key.sessions, key.rows.value), row.postedAt)
  }

  /** What ties the rows, sessions and answers of one key to the chain at the end of the pass. */
  ghost predicate KeyTrue(c: R.Chain, key: Key, answers: Ref -> Answers, placeOf: Ref -> Place, ticketMode: bool, now: Time) {
    key.rows.Some? ==>
      && (forall row :: row in key.rows.value ==>
            && Lists(c, row, placeOf(row.ref))
            && Truthful(c, row, answers(row.ref), placeOf(row.ref), Decide(row, answers(row.ref), Found(key, row), ticketMode, now).attempt))
      && (forall s :: s in key.sessions ==> placeOf(s.escrow).escrow == s.escrow)
      && SessionTimesApart(key.sessions, key.rows.value, r => placeOf(r).escrow)
  }

  /** No Submitted output that the key's rows list was taken by a refund. */
  ghost predicate NoneRefunded(c: R.Chain, key: Key, placeOf: Ref -> Place) {
    key.rows.Some? ==> forall row :: row in key.rows.value && row.state == Submitted ==> !EndedAs(c, placeOf(row.ref), R.Fate.RefundRevoked)
  }

  /** The usage record bills a listed session of the key whose own escrow paid the supplier. */
  ghost predicate PaidFor(c: R.Chain, key: Key, u: Usage) {
    exists s :: s in key.sessions && s.id == u.session && u.cost == Some(s.price) && R.FateIs(c, s.escrow, true)
  }

  ghost predicate BillOk(c: R.Chain, keys: seq<Key>, u: Usage) {
    u.status == Completed ==> exists k :: 0 <= k < |keys| && PaidFor(c, keys[k], u)
  }

  ghost predicate NewBillsOk(c: R.Chain, keys: seq<Key>, s: State, s': State) {
    s.usage <= s'.usage && forall i :: |s.usage| <= i < |s'.usage| ==> BillOk(c, keys, s'.usage[i])
  }

  lemma RowBillsOk(c: R.Chain, keys: seq<Key>, k: nat, row: Row, s: State, p: Protection, answers: Ref -> Answers, placeOf: Ref -> Place,
                   ticketMode: bool, now: Time)
    requires Lawful(c) && k < |keys| && keys[k].rows.Some? && row in keys[k].rows.value
    requires KeyTrue(c, keys[k], answers, placeOf, ticketMode, now) && NoneRefunded(c, keys[k], placeOf)
    ensures NewBillsOk(c, keys, s,
      SweepRow(s, keys[k].id, row, SessionsByTime(keys[k].sessions, keys[k].rows.value), p, answers, ticketMode, now))
  {
    hide Decide, Lists, Lawful, Gone, EndedAs, R.FateIs, Truthful, Remember, SessionTimesApart;
    var key, a := keys[k], answers(row.ref);
    var session := Found(key, row);
    var d := Decide(row, a, session, ticketMode, now);
    ClosesSayWhatHappened(c, row, a, session, ticketMode, now, placeOf(row.ref));
    CompletedIsBilled(row, a, session, ticketMode, now);
    if d.close == Some((Completed, true)) && session.Some? {
      SessionFoundByTime(key.sessions, key.rows.value, row.postedAt);
      RowFindsItsSessionExactly(key.sessions, key.rows.value, r => placeOf(r).escrow);
      assert FindsOwn(key.sessions, key.rows.value, row, r => placeOf(r).escrow);
      assert PaidFor(c, key, Usage(session.value.id, Completed, Some(session.value.price)));
    }
  }

  lemma CompletedIsBilled(row: Row, a: Answers, session: Option<Session>, ticketMode: bool, now: Time)
    ensures var d := Decide(row, a, session, ticketMode, now); d.close.Some? && d.close.value.0 == Completed ==> d.close.value.1
  {
    hide ReclaimDue;
  }

  lemma {:induction false} RowsBillsOk(c: R.Chain, keys: seq<Key>, k: nat, m: nat, s: State, p: Protection, answers: Ref -> Answers,
                                       placeOf: Ref -> Place, ticketMode: bool, now: Time)
    requires Lawful(c) && k < |keys| && keys[k].rows.Some? && m <= |keys[k].rows.value|
    requires KeyTrue(c, keys[k], answers, placeOf, ticketMode, now) && NoneRefunded(c, keys[k], placeOf)
    ensures NewBillsOk(c, keys, s,
      SweepRows(s, keys[k].id, keys[k].rows.value[..m], SessionsByTime(keys[k].sessions, keys[k].rows.value), p, answers, ticketMode, now))
    decreases m
  {
    hide SweepRow, KeyTrue, NoneRefunded, BillOk, Lawful;
    if m > 0 {
      var key := keys[k];
      var rows, byTime := key.rows.value, SessionsByTime(key.sessions, key.rows.value);
      assert rows[..m][..m - 1] == rows[..m - 1] && rows[..m][m - 1] == rows[m - 1];
      RowsBillsOk(c, keys, k, m - 1, s, p, answers, placeOf, ticketMode, now);
      var mid := SweepRows(s, key.id, rows[..m - 1], byTime, p, answers, ticketMode, now);
      RowBillsOk(c, keys, k, rows[m - 1], mid, p, answers, placeOf, ticketMode, now);
    }
  }

  /**
   Over a whole pass every bill is for a session whose own escrow paid the
   supplier, provided posting times name the sessions' escrows and no refund took
   a Submitted output; each proviso is exact for one row.
   */
  lemma {:induction false} PassBillsArePaid(c: R.Chain, keys: seq<Key>, m: nat, s: State, p: Protection, answers: Ref -> Answers,
                                            placeOf: Ref -> Place, ticketMode: bool, now: Time)
    requires Lawful(c) && m <= |keys|
    requires forall k :: 0 <= k < |keys| ==> KeyTrue(c, keys[k], answers, placeOf, ticketMode, now) && NoneRefunded(c, keys[k], placeOf)
    ensures NewBillsOk(c, keys, s, SweepKeys(s, keys[..m], p, answers, ticketMode, now))
    decreases m
  {
    hide SweepRows, KeyTrue, NoneRefunded, BillOk, Lawful;
    if m > 0 {
      assert keys[..m][..m - 1] == keys[..m - 1] && keys[..m][m - 1] == keys[m - 1];
      PassBillsArePaid(c, keys, m - 1, s, p, answers, placeOf, ticketMode, now);
      var mid, key := SweepKeys(s, keys[..m - 1], p, answers, ticketMode, now), keys[m - 1];
      if key.id !in p.keys && key.rows.Some? {
        assert key.rows.value[..|key.rows.value|] == key.rows.value;
        RowsBillsOk(c, keys, m - 1, |key.rows.value|, mid, p, answers, placeOf, ticketMode, now);
      }
    }
  }

  // ----- The pass that bills a refund -----

  const OWN_ROW := Row(0, Open, 0, None, Layout.Identity)
  const SUBMITTED_ROW := Row(2, Submitted, 0, None, Layout.Identity)
  const SESSION := Session(7, SessionOpen, 0, 5)
  const KEY := Key(1, Some([OWN_ROW, SUBMITTED_ROW]), [SESSION])
  const BEFORE := State([], [], map[7 := SESSION], [], [])

  /** The original output is spent; the Submitted one is live and its agent revoked, or gone. */
  function AnswersWhen(gone: bool): Ref -> Answers {
    r => Answers(false, if r == 2 && !gone then Live(Layout.Identity) else Missing, true, NoRefusal, NoRefusal, false, false)
  }

  /**
   Two passes over one key. The first sends a RefundRevoked whose wait fails, so
   nothing is remembered; the refund then lands; the second pass finds the output
   gone and bills the session as completed, although its escrow went back.
   */
  lemma RefundLandingLateIsBilled() returns (c: R.Chain, c': R.Chain, s: State, s': State)
    ensures Lawful(c) && Lawful(c') && 0 in c.escrows && 0 in c'.escrows && c.escrows[0] <= c'.escrows[0]
    ensures Lists(c, SUBMITTED_ROW, Place(0, 2)) && !Gone(c, Place(0, 2)) && EndedAs(c', Place(0, 2), R.Fate.RefundRevoked)
    ensures s == SweepKeys(BEFORE, [KEY], Protection({}, {}), AnswersWhen(false), false, 100_000)
    ensures s == BEFORE.(spends := [Spend(1, 2, RefundRevoked)])
    ensures s' == SweepKeys(s, [KEY], Protection({}, {}), AnswersWhen(true), false, 200_000)
    ensures s'.usage == [Usage(7, Completed, Some(5))] && R.FateIs(c', 0, false) && !R.FateIs(c', 0, true)
  {
    c := R.Chain(3, map[0 := SUBMITTED]);
    c' := RefundedChain();
    EndIsFate(c', Place(0, 2), R.Fate.RefundRevoked);
    s := SweepKeys(BEFORE, [KEY], Protection({}, {}), AnswersWhen(false), false, 100_000);
    s' := SweepKeys(s, [KEY], Protection({}, {}), AnswersWhen(true), false, 200_000);
    FirstPass();
    SecondPass();
  }

  lemma SessionsKnown()
    ensures SessionsByTime([SESSION], [OWN_ROW, SUBMITTED_ROW]) == map[0 := SESSION]
  {
    assert [SESSION][..0] == [] && SessionsByTime([SESSION][..0], [OWN_ROW, SUBMITTED_ROW]) == map[];
    assert OriginOf([OWN_ROW, SUBMITTED_ROW], 0) == Some(OWN_ROW);
  }

  /** A pass over the key is its two rows, one after the other. */
  lemma TwoRows(s: State, answers: Ref -> Answers, now: Time)
    ensures var one := SweepRow(s, 1, OWN_ROW, map[0 := SESSION], Protection({}, {}), answers, false, now);
      SweepKeys(s, [KEY], Protection({}, {}), answers, false, now)
        == SweepRow(one, 1, SUBMITTED_ROW, map[0 := SESSION], Protection({}, {}), answers, false, now)
  {
    hide SweepRow;
    SessionsKnown();
    var rows, p := [OWN_ROW, SUBMITTED_ROW], Protection({}, {});
    assert rows[..1][..0] == [] && rows[..1][0] == OWN_ROW && rows[1] == SUBMITTED_ROW && [KEY][..0] == [];
    assert SweepRows(s, 1, rows[..1][..0], map[0 := SESSION], p, answers, false, now) == s;
    assert SweepRows(s, 1, rows[..1], map[0 := SESSION], p, answers, false, now) == SweepRow(s, 1, OWN_ROW, map[0 := SESSION], p, answers, false, now);
    assert SweepKeys(s, [KEY][..0], p, answers, false, now) == s;
  }

  /** Nothing is due for the spent original output. */
  lemma OriginalRowChangesNothing(s: State, gone: bool, now: Time)
    requires now == 100_000 || now == 200_000
    ensures SweepRow(s, 1, OWN_ROW, map[0 := SESSION], Protection({}, {}), AnswersWhen(gone), false, now) == s
  {
    assert Decide(OWN_ROW, AnswersWhen(gone)(0), Some(SESSION), false, now) == NOTHING;
  }

  lemma FirstPass()
    ensures SweepKeys(BEFORE, [KEY], Protection({}, {}), AnswersWhen(false), false, 100_000) == BEFORE.(spends := [Spend(1, 2, RefundRevoked)])
  {
    TwoRows(BEFORE, AnswersWhen(false), 100_000);
    OriginalRowChangesNothing(BEFORE, false, 100_000);
    assert Decide(SUBMITTED_ROW, AnswersWhen(false)(2), Some(SESSION), false, 100_000) == NOTHING.(attempt := Some(RefundRevoked));
    hide Decide, SweepKeys;
    assert !Skipped(BEFORE, SUBMITTED_ROW, Protection({}, {}), 100_000);
  }

  lemma SecondPass()
    ensures SweepKeys(BEFORE.(spends := [Spend(1, 2, RefundRevoked)]), [KEY], Protection({}, {}), AnswersWhen(true), false, 200_000).usage
      == [Usage(7, Completed, Some(5))]
  {
    var s := BEFORE.(spends := [Spend(1, 2, RefundRevoked)]);
    TwoRows(s, AnswersWhen(true), 200_000);
    OriginalRowChangesNothing(s, true, 200_000);
    assert Decide(SUBMITTED_ROW, AnswersWhen(true)(2), Some(SESSION), false, 200_000) == Decision(None, true, false, Some((Completed, true)));
    hide Decide, SweepKeys;
    assert !Skipped(s, SUBMITTED_ROW, Protection({}, {}), 200_000);
  }
}

/**
 The publisher records an advert as retired when a chain read misses its output.
 Rollbacks can bring the output back. Here is exactly when they cannot, for one
 read and over whole runs of the publisher.
 */
module RetiredVerdict {
  import opened Prelude
  import opened Ledger
  import opened ChainFinality
  import opened PublisherTables
  import C = AdvertCheck
  import S = PublisherStore
  import opened PublisherService
  import opened PublisherProtocol
  import opened PublisherSafety
  import V = PublisherServing

  predicate SpentBehind(c: ChainState, ref: OutRef) {
    exists n :: 0 <= n < |c.entries| && ref in Consumed(c.entries[n]) && c.entries[n].slot <= FinalSlot(c)
  }

  /**
   A missing advert output is gone for good: a block behind the deepest rollback
   spent it, or its transaction is not on the chain and can enter no block, because
   it comes too late or because an output that it needs is taken for good.
   */
  predicate GoneForGood(c: ChainState, tx: Tx) {
    || SpentBehind(c, OutRef(tx, 0))
    || (!Included(c, tx) && (!WellFormed(tx) || TooLateFor(c, tx) || NeedTaken(c, tx)))
  }

  /** Whatever the chain does next, the verdict holds. */
  lemma GoneForGoodStays(c: ChainState, tx: Tx)
    requires ValidChain(c) && tx.outputs != [] && GoneForGood(c, tx)
    ensures GoneFrom(c, OutRef(tx, 0))
  {
    hide ValidChain, GoneFrom, Included, NeedTaken, TooLateFor, WellFormed;
    if SpentBehind(c, OutRef(tx, 0)) {
      var n :| 0 <= n < |c.entries| && OutRef(tx, 0) in Consumed(c.entries[n]) && c.entries[n].slot <= FinalSlot(c);
      SpendStaysExactly(c, n, OutRef(tx, 0));
    } else if TooLateFor(c, tx) {
      LateIsGone(c, tx);
    } else {
      TakenIsGone(c, tx);
    }
  }

  /**
   The retired verdict of one read holds on every chain the node can come to
   adopt exactly when the output is gone for good. The chain that was read must
   show the advert's output as spent, or the outputs that its transaction needs as
   created, spent or not.
   */
  lemma RetiredVerdictHoldsExactly(cfg: Config, s: SignedAdvert, c: ChainState)
    requires AdvertRowChecked(cfg, s) && ValidChain(c) && !Unspent(c.entries, s.advertRef)
    requires Spent(c.entries, s.advertRef) || forall r :: r in Needs(s.tx) ==> Created(c.entries, r)
    ensures GoneFrom(c, s.advertRef) <==> GoneForGood(c, s.tx)
  {
    hide ValidChain, GoneFrom, Included, Created, TooLateFor, NeedTaken, WellFormed;
    if GoneForGood(c, s.tx) {
      GoneForGoodStays(c, s.tx);
    } else if Spent(c.entries, s.advertRef) {
      var e :| e in c.entries && s.advertRef in Consumed(e);
      var n :| 0 <= n < |c.entries| && c.entries[n] == e;
      SpendStaysExactly(c, n, s.advertRef);
    } else {
      MissingIsNotIncluded(cfg, s, c);
      AbsenceStaysExactly(c, s.tx);
    }
  }

  lemma MissingIsNotIncluded(cfg: Config, s: SignedAdvert, c: ChainState)
    requires AdvertRowChecked(cfg, s) && !Unspent(c.entries, s.advertRef) && !Spent(c.entries, s.advertRef)
    ensures !Included(c, s.tx)
  {
    hide AdvertRowChecked;
    if Included(c, s.tx) {
      V.IncludedMeansCreated(cfg, s, c);
    }
  }

  // ----- How deep the evidence must be -----

  /** The read misses the output, and what explains it is `margin` slots old. */
  predicate RetiredEvidence(c: ChainState, tx: Tx, margin: nat) {
    || (exists n :: 0 <= n < |c.entries| && OutRef(tx, 0) in Consumed(c.entries[n]) && c.tip >= c.entries[n].slot + margin)
    || (!Included(c, tx) && tx.validUntil.Some? && c.tip >= tx.validUntil.value + margin)
  }

  ghost predicate RetiredMarginSound(margin: nat) {
    forall c: ChainState, tx: Tx ::
      ValidChain(c) && tx.outputs != [] && RetiredEvidence(c, tx, margin) ==> GoneFrom(c, OutRef(tx, 0))
  }

  /** Evidence as old as the rollback depth is enough for every chain and every transaction, and nothing younger is; the code asks for none. */
  lemma RetiredMarginExactly(margin: nat)
    ensures RetiredMarginSound(margin) <==> margin >= ROLLBACK_SLOTS
  {
    if margin >= ROLLBACK_SLOTS {
      forall c: ChainState, tx: Tx | ValidChain(c) && tx.outputs != [] && RetiredEvidence(c, tx, margin)
        ensures GoneFrom(c, OutRef(tx, 0))
      {
        hide ValidEntries, GoneFrom;
        GoneForGoodStays(c, tx);
      }
    } else {
      var c, tx := YoungSpend(margin);
    }
  }

  /** An output spent in slot 1, read `margin` slots later. */
  lemma YoungSpend(margin: nat) returns (c: ChainState, tx: Tx)
    requires margin < ROLLBACK_SLOTS
    ensures ValidChain(c) && tx.outputs != [] && RetiredEvidence(c, tx, margin) && !GoneFrom(c, OutRef(tx, 0))
  {
    var coin := Genesis(0, Output(0, 1, NoDatum));
    tx := Tx([coin], [Output(0, 1, NoDatum)], 0, None, [], None, None);
    var made, spend := Entry(tx, 0, true), Entry(Tx([OutRef(tx, 0)], [], 1, None, [], None, None), 1, true);
    c := ChainState([made, spend], margin + 1, margin + 1);
    assert Includable([], made);
    assert [] + [made] == [made] && [made] + [spend] == c.entries;
    AppendIsValid([], made);
    NewOutputIsUnspent([], made);
    AppendIsValid([made], spend);
    assert c.entries[1] == spend && OutRef(tx, 0) in Consumed(c.entries[1]);
    SpendStaysExactly(c, 1, OutRef(tx, 0));
  }

  // ----- Over whole runs -----

  lemma PublishKeepsHistory(cfg: Config, w: World, id: PublicationId, m: PublishMove, at: Time, w': World)
    requires w.history != [] && PublishStep(cfg, w, id, m, at, w')
    ensures w'.history == w.history
  {
    hide S.Retry, S.Create, S.Update, S.Journal, S.ConfirmAdvert, RecordEvidence, RecordPhase, Approved, Included;
  }

  lemma AdvertKeepsHistory(cfg: Config, w: World, target: TargetId, m: AdvertMove, at: Time, w': World)
    requires w.history != [] && S.JournalOk(w.db) && AdvertStep(cfg, w, target, m, at, w')
    ensures w'.history == w.history
  {
    hide S.JournalOk, S.ConfirmAdvert, S.JournalReadvert, S.RetireAdvert, S.SwitchAdvert, S.JournalRetirement, ResolveReadvert, Settle, Approved,
         RetirementApproved, Included, Unspent, HasRetirement, IsPublished, SwitchedTo, S.LiveIdentityAdvert, S.NextGeneration, S.Adverts;
  }

  lemma StartKeepsHistory(w: World, target: TargetId, m: StartMove, at: Time, w': World)
    requires w.history != [] && S.JournalOk(w.db) && StartStep(w, target, m, at, w')
    ensures w'.history == w.history
  {
    hide S.JournalOk, S.ConfirmAdvert, Unspent, FinishStart, S.ServingAdvert, S.Adverts;
  }

  lemma StepExtendsHistory(cfg: Config, w: World, step: Step, w': World)
    requires w.history != [] && S.JournalOk(w.db) && Next(cfg, w, step, w')
    ensures w.history <= w'.history
  {
    hide S.JournalOk, PublishStep, AdvertStep, StartStep, S.Recover, ChainStep;
    match step
    case Publish(id, p, at) => PublishKeepsHistory(cfg, w, id, p, at, w');
    case Adverts(target, a, at) => AdvertKeepsHistory(cfg, w, target, a, at, w');
    case Start(target, s, at) => StartKeepsHistory(w, target, s, at, w');
    case _ =>
  }

  lemma {:induction false} RunExtendsHistory(cfg: Config, ws: seq<World>, i: nat, j: nat)
    requires ConfigOk(cfg) && Run(cfg, ws) && i <= j < |ws|
    ensures ws[i].history <= ws[j].history
    decreases j
  {
    hide Inv, ConfigOk, Next, Boots;
    if i < j {
      RunExtendsHistory(cfg, ws, i, j - 1);
      assert Steps(cfg, ws[j - 1], ws[j]);
      var step :| Next(cfg, ws[j - 1], step, ws[j]);
      StepExtendsHistory(cfg, ws[j - 1], step, ws[j]);
    }
  }

  lemma LaterIsLed(run: seq<ChainState>, h: nat)
    requires ChainRun(run) && h < |run|
    ensures Leads(run[h], run[|run| - 1])
  {
    hide ValidChain, Follows;
    RunStaysValid(run, h);
    var rest := run[h..];
    forall i, j | 0 <= i && j == i + 1 && j < |rest| ensures Follows(rest[i], rest[j]) {
      assert Follows(run[h + i], run[h + j]);
    }
    assert ChainRun(rest) && rest[0] == run[h] && rest[|rest| - 1] == run[|run| - 1];
  }

  /** A settling read of chain `h` of the history missed the output of this live advert. */
  ghost predicate SettlesMissing(cfg: Config, w: World, w': World, target: TargetId, h: nat, key: AdvertKey) {
    && w.history != [] && S.JournalOk(w.db) && h < |w.history| && key in w.db.adverts && Live(w.db.adverts[key])
    && target in w.advertOps && w.advertOps[target].key == key && !Sees(w, h, key)
    && exists retiredBy, at :: Next(cfg, w, Adverts(target, SettleEnds(h, retiredBy), at), w')
  }

  /** The advert is recorded as retired, and the adopted chain does not show its output. */
  ghost predicate RetiredAndGone(w: World, key: AdvertKey) {
    && key in w.db.adverts && w.db.adverts[key].endReason == Some(Retired)
    && w.history != [] && !Unspent(Current(w).entries, w.db.adverts[key].signed.advertRef)
  }

  /**
   In every run, an advert that a settling read found missing, and gone for good
   on the chain it read, is recorded as retired, and no chain that the node
   adopts later shows its output again.
   */
  lemma RetiredVerdictStays(cfg: Config, ws: seq<World>, i: nat, j: nat, target: TargetId, h: nat, key: AdvertKey)
    requires ConfigOk(cfg) && Run(cfg, ws) && i < j < |ws|
    requires SettlesMissing(cfg, ws[i], ws[i + 1], target, h, key)
    requires GoneForGood(ws[i].history[h], ws[i].db.adverts[key].signed.tx)
    ensures RetiredAndGone(ws[j], key)
  {
    hide Run, ConfigOk, ServiceOk, OpsOk, ExpiredAreDead, SentJournaled, Unspent, GoneForGood, Inv, S.JournalOk, Next;
    var s := ws[i].db.adverts[key].signed;
    RunKeeps(cfg, ws, i);
    RunKeeps(cfg, ws, j);
    RunExtendsHistory(cfg, ws, i, j);
    var retiredBy, at :| Next(cfg, ws[i], Adverts(target, SettleEnds(h, retiredBy), at), ws[i + 1]);
    SettledIsRetired(cfg, ws[i], target, h, retiredBy, at, ws[i + 1]);
    RunKeeps(cfg, ws, i + 1);
    RunIsForward(cfg, ws, i + 1, j);
    V.InvMeansService(cfg, ws[i + 1]);
    EndedStays(cfg, ws[i + 1].db, ws[j].db, key);
    KeptRowsStay(ws[i + 1].db, ws[j].db);
    GoneOnLater(cfg, ws[j], h, s.tx, s, ws[i]);
  }

  lemma SettledIsRetired(cfg: Config, w: World, target: TargetId, h: nat, retiredBy: Option<Tx>, at: Time, w': World)
    requires w.history != [] && S.JournalOk(w.db) && Next(cfg, w, Adverts(target, SettleEnds(h, retiredBy), at), w')
    requires var key := w.advertOps[target].key; key in w.db.adverts && !Sees(w, h, key) && Live(w.db.adverts[key])
    ensures var key := w.advertOps[target].key;
      && h < |w.history| && key in w'.db.adverts && w'.db.adverts[key].endReason == Some(Retired)
      && w'.db.adverts[key].signed == w.db.adverts[key].signed
  {
    hide S.JournalOk, Unspent;
  }

  lemma GoneOnLater(cfg: Config, w: World, h: nat, tx: Tx, s: SignedAdvert, was: World)
    requires Inv(cfg, w) && Inv(cfg, was) && was.history <= w.history && h < |was.history| && GoneForGood(was.history[h], tx)
    requires s.tx == tx && exists k :: k in was.db.adverts && was.db.adverts[k].signed == s
    ensures w.history != [] && !Unspent(Current(w).entries, s.advertRef)
  {
    hide ServiceOk, OpsOk, ExpiredAreDead, SentJournaled, ChainRun, GoneForGood, Unspent;
    var k :| k in was.db.adverts && was.db.adverts[k].signed == s;
    AdvertRowFacts(cfg, was.db, k);
    RowHasOutput(cfg, s);
    RunStaysValid(was.history, h);
    GoneForGoodStays(was.history[h], tx);
    LaterIsLed(w.history, h);
  }

  lemma RowHasOutput(cfg: Config, s: SignedAdvert)
    requires AdvertRowChecked(cfg, s)
    ensures s.tx.outputs != [] && s.advertRef == OutRef(s.tx, 0)
  {
  }
}

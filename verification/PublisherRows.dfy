/**
 What the stored rows say in every state of a run: which columns go with a
 publication's phase, and that every journaled advert offers the approved terms
 and holds the approved bond.
 */
module PublisherRows {
  import opened Prelude
  import opened Ledger
  import opened PublisherTables
  import C = AdvertCheck
  import S = PublisherStore
  import opened PublisherService
  import opened PublisherProtocol
  import opened PublisherSafety

  // ----- One write -----

  /** A publication row is written: its inputs stay, or no advert is journaled for it. */
  lemma RowWriteKeeps(cfg: Config, db: Db, id: PublicationId, row: Publication)
    requires RowsOk(cfg, db) && PhaseRowOk(row)
    requires
      || (id in db.publications && row.terms == db.publications[id].terms && row.artifact == db.publications[id].artifact)
      || (forall k :: k in db.adverts ==> db.adverts[k].signed.publication != id)
    ensures RowsOk(cfg, db.(publications := db.publications[id := row]))
  {
    hide PhaseRowOk;
  }

  /** Adverts change without touching what was signed, or one is added that offers the approved terms. */
  lemma AdvertWritesKeep(cfg: Config, db: Db, db': Db)
    requires RowsOk(cfg, db) && db'.publications == db.publications
    requires forall k :: k in db'.adverts ==>
      || (k in db.adverts && db'.adverts[k].signed == db.adverts[k].signed)
      || OfferRowOk(cfg, db.publications, db'.adverts[k].signed)
    ensures RowsOk(cfg, db')
  {
    hide PhaseRowOk, OfferRowOk;
  }

  lemma UpdateKeepsRows(cfg: Config, db: Db, id: PublicationId, from: Phase, patch: S.Patch, at: Time)
    requires RowsOk(cfg, db)
    requires id in db.publications && db.publications[id].phase == from ==> PhaseRowOk(S.Patched(db.publications[id], patch, at))
    ensures RowsOk(cfg, OrSame(db, S.Update(db, id, {from}, patch, at)))
  {
    hide RowsOk, PhaseRowOk, Accepts;
    if S.Update(db, id, {from}, patch, at).Ok? {
      RowWriteKeeps(cfg, db, id, S.Patched(db.publications[id], patch, at));
    }
  }

  lemma ConfirmKeepsRows(cfg: Config, db: Db, key: AdvertKey, at: Time)
    requires RowsOk(cfg, db)
    ensures RowsOk(cfg, S.ConfirmAdvert(db, key, at))
  {
    hide RowsOk;
    AdvertWritesKeep(cfg, db, S.ConfirmAdvert(db, key, at));
  }

  lemma ExpireKeepsRows(cfg: Config, db: Db, key: AdvertKey, at: Time)
    requires RowsOk(cfg, db)
    ensures RowsOk(cfg, S.ExpireAdvert(db, key, at))
  {
    hide RowsOk;
    AdvertWritesKeep(cfg, db, S.ExpireAdvert(db, key, at));
  }

  lemma SwitchKeepsRows(cfg: Config, db: Db, key: AdvertKey, at: Time)
    requires RowsOk(cfg, db)
    ensures RowsOk(cfg, OrSame(db, S.SwitchAdvert(db, key, at)))
  {
    hide RowsOk;
    AdvertWritesKeep(cfg, db, OrSame(db, S.SwitchAdvert(db, key, at)));
  }

  lemma RetireKeepsRows(cfg: Config, db: Db, key: AdvertKey, tx: Option<Tx>, at: Time)
    requires RowsOk(cfg, db)
    ensures RowsOk(cfg, S.RetireAdvert(db, key, tx, at))
  {
    hide RowsOk;
    AdvertWritesKeep(cfg, db, S.RetireAdvert(db, key, tx, at));
  }

  lemma PublicationRowFacts(cfg: Config, db: Db, id: PublicationId)
    requires RowsOk(cfg, db) && id in db.publications
    ensures PhaseRowOk(db.publications[id])
  {
  }

  /** A publication that has not signed has no journaled advert. */
  lemma UnsignedHasNoAdvert(cfg: Config, db: Db, id: PublicationId)
    requires ServiceOk(cfg, db) && (id in db.publications ==> db.publications[id].tx.None?)
    ensures forall k :: k in db.adverts ==> db.adverts[k].signed.publication != id
  {
    hide AdvertsChecked, RetirementsOk;
    forall k | k in db.adverts ensures db.adverts[k].signed.publication != id {
      AdvertRowFacts(cfg, db, k);
      S.AdvertMeansSigned(db, k);
    }
  }

  lemma FirstMeansSigned(cfg: Config, db: Db, key: AdvertKey)
    requires ServiceOk(cfg, db) && key in db.adverts
    ensures key.publication in db.publications && db.publications[key.publication].tx.Some?
  {
    hide AdvertsChecked, RetirementsOk;
    S.AdvertMeansSigned(db, key);
  }

  // ----- One step -----

  lemma PrepareKeepsRows(cfg: Config, w: World, id: PublicationId, n: S.NewPublication, at: Time, w': World)
    requires Inv(cfg, w) && RowsOk(cfg, w.db) && PublishStep(cfg, w, id, Prepares(n), at, w')
    ensures RowsOk(cfg, w'.db)
  {
    hide ServiceOk, RowsOk, OpsOk, SentJournaled, ExpiredAreDead, ChainRun, SlotFree;
    var row := if id in w.db.publications then S.RetriedPublication(w.db.publications[id], n, at) else S.FreshPublication(n, at);
    UnsignedHasNoAdvert(cfg, w.db, id);
    RowWriteKeeps(cfg, w.db, id, row);
  }

  lemma SignKeepsRows(cfg: Config, w: World, id: PublicationId, agent: Option<AgentId>, built: C.Built, visible: OutRef -> bool, at: Time, w': World)
    requires ConfigOk(cfg) && Inv(cfg, w) && RowsOk(cfg, w.db) && PublishStep(cfg, w, id, PublishSigns(agent, built, visible), at, w')
    ensures RowsOk(cfg, w'.db)
  {
    hide ServiceOk, RowsOk, OpsOk, SentJournaled, ExpiredAreDead, ChainRun, Accepts, C.AllTo, C.AllFrom, C.Listed, C.Total, C.Paid, C.Collateral;
    var slot := cfg.slots[w.db.publications[id].target];
    var expected := AdvertDatum(PublishOffer(slot, w.db.publications[id]), 0, agent);
    var t := C.SignedFrom(id, slot, expected, built.tx, w.publishOps[id].maxDebit, at);
    PublicationRowFacts(cfg, w.db, id);
    RowWriteKeeps(cfg, w.db, id, S.Signed(w.db.publications[id], t, at));
    var mid := w.db.(publications := w.db.publications[id := S.Signed(w.db.publications[id], t, at)]);
    assert OfferRowOk(cfg, mid.publications, t);
    AdvertWritesKeep(cfg, mid, w'.db);
  }

  lemma EvidenceKeepsRows(cfg: Config, db: Db, id: PublicationId, confirmed: bool, c: ChainState, at: Time)
    requires RowsOk(cfg, db)
    ensures RowsOk(cfg, RecordEvidence(db, id, confirmed, c, at).0)
  {
    hide RowsOk, Unspent, Examine;
    ConfirmKeepsRows(cfg, db, AdvertKey(id, 1), at);
    ExpireKeepsRows(cfg, db, AdvertKey(id, 1), at);
  }

  /** An update from a phase that has an image keeps the row's shape. */
  lemma PhaseMoves(row: Publication, to: Option<Phase>, at: Time)
    requires PhaseRowOk(row) && (row.phase == Publishing || row.phase == ConfirmationPending)
    requires to.None? || to.value == Prepared || to.value == Publishing || to.value == Failed || (to.value == ConfirmationPending && row.tx.Some?)
    ensures PhaseRowOk(S.Patched(row, S.Patch(to, None, None, None), at))
  {
  }

  lemma PublishKeepsRows(cfg: Config, w: World, id: PublicationId, m: PublishMove, at: Time, w': World)
    requires ConfigOk(cfg) && Inv(cfg, w) && RowsOk(cfg, w.db) && PublishStep(cfg, w, id, m, at, w')
    ensures RowsOk(cfg, w'.db)
  {
    hide ServiceOk, RowsOk, ConfigOk, AdvertOpsOk, StartOpsOk, SentJournaled, ExpiredAreDead, ChainRun, S.Update, S.Retry, S.Create, S.Journal,
         S.ConfirmAdvert, RecordEvidence, Approved, Included;
    if id in w.db.publications {
      PublicationRowFacts(cfg, w.db, id);
    }
    match m
    case Prepares(n) => PrepareKeepsRows(cfg, w, id, n, at, w');
    case PrepareEnds(image) => UpdateKeepsRows(cfg, w.db, id, Preparing, PreparePatch(image, at), at);
    case ImageRebuilt(rebuilt) => UpdateKeepsRows(cfg, w.db, id, w.db.publications[id].phase, S.Patch(None, Some(rebuilt), None, None), at);
    case PublishBegins(maxDebit) => UpdateKeepsRows(cfg, w.db, id, Prepared, ToPhase(Publishing), at);
    case PublishSigns(agent, built, visible) => SignKeepsRows(cfg, w, id, agent, built, visible, at, w');
    case PublishConfirms(i) => ConfirmKeepsRows(cfg, w.db, AdvertKey(id, 1), at);
    case PublishFails =>
      if AdvertKey(id, 1) in w.db.adverts { FirstMeansSigned(cfg, w.db, AdvertKey(id, 1)); }
      UpdateKeepsRows(cfg, w.db, id, Publishing, ToPhase(if AdvertKey(id, 1) in w.db.adverts then ConfirmationPending else Prepared), at);
    case ResolveReads(i) => EvidenceKeepsRows(cfg, w.db, id, w.publishOps[id].confirmed, w.history[i], at);
    case ResolveRecords =>
      var op := w.publishOps[id];
      assert PublishOpOk(w.db, id, op);
      if id in w.db.publications && w.db.publications[id].phase == op.phase { PhaseMoves(w.db.publications[id], op.to, at); }
      UpdateKeepsRows(cfg, w.db, id, op.phase, S.Patch(op.to, None, None, None), at);
    case _ =>
  }

  /** A further generation offers what the first one does. */
  lemma ReadvertKeepsRows(cfg: Config, w: World, target: TargetId, built: C.Built, visible: OutRef -> bool, at: Time, w': World)
    requires ConfigOk(cfg) && Inv(cfg, w) && RowsOk(cfg, w.db) && AdvertStep(cfg, w, target, ReadvertSigns(built, visible), at, w')
    ensures RowsOk(cfg, w'.db)
  {
    hide ServiceOk, OpsOk, SentJournaled, ExpiredAreDead, ChainRun, S.NextGeneration, TxFresh, LayoutFree, C.AllTo, C.AllFrom, C.Listed, C.Total,
         C.Paid, C.Collateral, PhaseRowOk, S.JournalOk;
    var key := w.advertOps[target].key;
    var publish := w.db.adverts[key].signed;
    AdvertRowFacts(cfg, w.db, key);
    assert OfferRowOk(cfg, w.db.publications, publish);
    AdvertWritesKeep(cfg, w.db, w'.db);
  }

  lemma AdvertKeepsRows(cfg: Config, w: World, target: TargetId, m: AdvertMove, at: Time, w': World)
    requires ConfigOk(cfg) && Inv(cfg, w) && RowsOk(cfg, w.db) && AdvertStep(cfg, w, target, m, at, w')
    ensures RowsOk(cfg, w'.db)
  {
    hide Inv, RowsOk, ConfigOk, S.JournalOk, S.JournalReadvert, S.ConfirmAdvert, S.ExpireAdvert, S.RetireAdvert, S.SwitchAdvert, Approved, RetirementApproved, Included,
         Unspent, HasRetirement, IsPublished, SwitchedTo, S.LiveIdentityAdvert, S.NextGeneration, Examine, Accepts;
    match m
    case ReadvertSigns(built, visible) => ReadvertKeepsRows(cfg, w, target, built, visible, at, w');
    case ReadvertConfirms(i) => ConfirmKeepsRows(cfg, w.db, w.advertOps[target].key, at);
    case ReadvertResolves(i) =>
      ConfirmKeepsRows(cfg, w.db, w.advertOps[target].key, at);
      ExpireKeepsRows(cfg, w.db, w.advertOps[target].key, at);
    case SwitchEnds(i) => SwitchKeepsRows(cfg, w.db, w.advertOps[target].key, at);
    case SettleEnds(i, retiredBy) => RetireKeepsRows(cfg, w.db, w.advertOps[target].key, retiredBy, at);
    case RetireSigns(built, visible) => AdvertWritesKeep(cfg, w.db, w'.db);
    case RetireConfirms(i) => RetireKeepsRows(cfg, w.db, w.advertOps[target].key, Some(w.advertOps[target].tx), at);
    case _ =>
  }

  lemma StartKeepsRows(cfg: Config, w: World, target: TargetId, m: StartMove, at: Time, w': World)
    requires Inv(cfg, w) && RowsOk(cfg, w.db) && StartStep(w, target, m, at, w')
    ensures RowsOk(cfg, w'.db)
  {
    hide ServiceOk, RowsOk, AdvertOpsOk, PublishOpsOk, SentJournaled, ExpiredAreDead, ChainRun, S.ConfirmAdvert, Unspent, S.ServingAdvert, S.Adverts, S.Update;
    match m
    case StartConfirms(i) => ConfirmKeepsRows(cfg, w.db, w.startOps[target].key, at);
    case StartEnds =>
      var op := w.startOps[target];
      assert StartOpOk(w.db, op);
      FirstMeansSigned(cfg, w.db, op.key);
      PublicationRowFacts(cfg, w.db, op.id);
      var phase := w.db.publications[op.id].phase;
      UpdateKeepsRows(cfg, w.db, op.id, phase, if phase == Published then NoPatch() else S.Patch(Some(Published), None, None, Some(at)), at);
    case _ =>
  }

  lemma RecoverKeepsRows(cfg: Config, db: Db, at: Time)
    requires ServiceOk(cfg, db) && RowsOk(cfg, db)
    ensures RowsOk(cfg, S.Recover(db, at))
  {
    hide AdvertsChecked, RetirementsOk, PublishedConfirmed, LaterArePublished, S.JournalOk, S.Recover, PhaseRowOk, OfferRowOk, RowsOk;
    S.RecoverSettlesPhases(db, at, at);
    RecoveredRowsAreOk(cfg, db, S.Recover(db, at), at);
  }

  lemma RecoveredRowsAreOk(cfg: Config, db: Db, db': Db, at: Time)
    requires RowsOk(cfg, db) && db'.publications.Keys == db.publications.Keys && db'.adverts == db.adverts
    requires forall id :: id in db.publications ==>
      var row, row' := db.publications[id], db'.publications[id];
      || row' == row || (row.phase == Preparing && row' == row.(phase := Failed, updatedAt := at))
      || (row.phase == Publishing && row' == row.(phase := Prepared, updatedAt := at))
      || (row.phase == Publishing && row.tx.Some? && row' == row.(phase := ConfirmationPending, updatedAt := at))
    ensures RowsOk(cfg, db')
  {
    forall id | id in db'.publications ensures PhaseRowOk(db'.publications[id]) {
      PublicationRowFacts(cfg, db, id);
    }
    forall k | k in db'.adverts ensures OfferRowOk(cfg, db'.publications, db'.adverts[k].signed) {
      assert OfferRowOk(cfg, db.publications, db.adverts[k].signed);
    }
  }

  lemma NextKeepsRows(cfg: Config, w: World, step: Step, w': World)
    requires ConfigOk(cfg) && Inv(cfg, w) && RowsOk(cfg, w.db) && Next(cfg, w, step, w')
    ensures RowsOk(cfg, w'.db)
  {
    hide ServiceOk, OpsOk, SentJournaled, ExpiredAreDead, ChainRun, RowsOk, ConfigOk, PublishStep, AdvertStep, StartStep, ChainStep, S.Recover;
    match step
    case Publish(id, p, at) => PublishKeepsRows(cfg, w, id, p, at, w');
    case Adverts(target, a, at) => AdvertKeepsRows(cfg, w, target, a, at, w');
    case Start(target, s, at) => StartKeepsRows(cfg, w, target, s, at, w');
    case ChainMoves(move, next) =>
    case Crashes(at) => RecoverKeepsRows(cfg, w.db, at);
  }

  // ----- Every run -----

  lemma {:induction false} RunKeepsRows(cfg: Config, ws: seq<World>, i: nat)
    requires ConfigOk(cfg) && Run(cfg, ws) && i < |ws|
    ensures RowsOk(cfg, ws[i].db)
  {
    hide Inv, ConfigOk, Next, RowsOk, ServiceOk, ExpiredAreDead;
    if i > 0 {
      RunKeepsRows(cfg, ws, i - 1);
      RunKeeps(cfg, ws, i - 1);
      assert Steps(cfg, ws[i - 1], ws[i]);
      var step :| Next(cfg, ws[i - 1], step, ws[i]);
      NextKeepsRows(cfg, ws[i - 1], step, ws[i]);
    }
  }

  /**
   In every state of every run, over crashes and retries: a publication that is
   prepared or being published has its runtime image and its preparation time, one
   that waits for a confirmation or is published has signed, and one that is not
   yet signed is not waiting for anything on the chain.
   */
  lemma PhasesSayWhatIsThere(cfg: Config, ws: seq<World>, i: nat, id: PublicationId)
    requires ConfigOk(cfg) && Run(cfg, ws) && i < |ws| && id in ws[i].db.publications
    ensures var p := ws[i].db.publications[id];
      && (p.phase == Prepared || p.phase == Publishing ==> p.runtimeImage.Some? && p.preparedAt.Some?)
      && (p.phase == ConfirmationPending || p.phase == Published ==> p.tx.Some? && p.runtimeImage.Some? && p.preparedAt.Some?)
      && (p.phase == Published ==> p.publishedAt.Some?)
      && (p.phase == Preparing || p.phase == Prepared ==> p.tx.None?)
      && (p.tx.Some? <==> AdvertKey(id, 1) in ws[i].db.adverts)
  {
    hide Run, ConfigOk, OpsOk, SentJournaled, ExpiredAreDead, ChainRun, AdvertsChecked, RetirementsOk, RowsOk;
    RunKeepsRows(cfg, ws, i);
    RunKeeps(cfg, ws, i);
    PublicationRowFacts(cfg, ws[i].db, id);
  }

  /**
   In every state of every run a journaled advert of any generation offers the
   approved terms, price and bonds of its publication, for its artifact and at the
   endpoint of its slot.
   */
  lemma AdvertsOfferTheApprovedTerms(cfg: Config, ws: seq<World>, i: nat, k: AdvertKey)
    requires ConfigOk(cfg) && Run(cfg, ws) && i < |ws| && k in ws[i].db.adverts
    ensures var s := ws[i].db.adverts[k].signed;
      && k.publication in ws[i].db.publications && s.target in cfg.slots && s.tx.outputs != [] && s.tx.outputs[0].datum.AdvertDatum?
      && var slot, p, offer := cfg.slots[s.target], ws[i].db.publications[k.publication], s.tx.outputs[0].datum.offer;
         && offer.supplierPkh == slot.supplierPkh && offer.endpointUrl == slot.endpointUrl && offer.active
         && offer.price == p.terms.price && offer.supplierBond == p.terms.supplierBond && offer.buyerBond == p.terms.buyerBond
         && offer.model == p.artifact.model && offer.detailHash == p.artifact.manifestHash
         && offer.maxProcessingMs == p.artifact.maxRuntimeMs + 150_000
  {
    hide Run, ConfigOk, OpsOk, SentJournaled, ExpiredAreDead, ChainRun, ServiceOk;
    RunKeepsRows(cfg, ws, i);
    RunKeeps(cfg, ws, i);
    AdvertRowFacts(cfg, ws[i].db, k);
    assert OfferRowOk(cfg, ws[i].db.publications, ws[i].db.adverts[k].signed);
  }

  /**
   In every state of every run the output of a journaled advert, wherever a chain
   shows it, holds at least the approved bond of the supplier and sits at the
   address of its layout, with an agent exactly in the identity layout.
   */
  lemma AdvertOutputHoldsItsBond(cfg: Config, ws: seq<World>, i: nat, k: AdvertKey)
    requires ConfigOk(cfg) && Run(cfg, ws) && i < |ws| && k in ws[i].db.adverts
    ensures var s := ws[i].db.adverts[k].signed;
      && s.target in cfg.slots && k.publication in ws[i].db.publications && OutputOf(s.advertRef).Some?
      && var output, slot := OutputOf(s.advertRef).value, cfg.slots[s.target];
         && output.lovelace >= ws[i].db.publications[k.publication].terms.supplierBond
         && output.address == (if s.layout == Identity then slot.identityAdverts else slot.legacyAdverts)
         && output.datum.AdvertDatum? && (output.datum.agent.Some? <==> s.layout == Identity)
  {
    hide Run, ConfigOk, OpsOk, SentJournaled, ExpiredAreDead, ChainRun, ServiceOk;
    RunKeepsRows(cfg, ws, i);
    RunKeeps(cfg, ws, i);
    AdvertRowFacts(cfg, ws[i].db, k);
    assert OfferRowOk(cfg, ws[i].db.publications, ws[i].db.adverts[k].signed);
  }
}

/**
 Where each operation of the publisher leads, over its own steps and with
 anything else running in between: which evidence confirms or ends an advert, to
 which phase it takes the publication, and what stays untouched.
 */
module PublisherOutcomes {
  import opened Prelude
  import opened Ledger
  import opened PublisherTables
  import C = AdvertCheck
  import S = PublisherStore
  import opened PublisherService
  import opened PublisherProtocol
  import opened PublisherSafety

  // ----- The outcome of a publish -----

  /** A publication is busy with the same operation in both states. */
  predicate SamePublishOp(w: World, w': World, id: PublicationId) {
    id in w.publishOps && id in w'.publishOps && w'.publishOps[id] == w.publishOps[id]
  }

  /** The one column of a publication, and its time, that a phase write changes. */
  predicate OnlyPhase(db: Db, db': Db, id: PublicationId, phase: Phase, at: Time) {
    id in db.publications && db' == db.(publications := db.publications[id := db.publications[id].(phase := phase, updatedAt := at)])
  }

  /** The journal lists the inputs of the transaction, so both say the same about them. */
  lemma InputsAreListed(cfg: Config, s: SignedAdvert, c: ChainState)
    requires AdvertRowChecked(cfg, s)
    ensures (exists w :: w in s.walletInputs && !Unspent(c.entries, w.ref)) <==> (exists ref :: ref in s.tx.inputs && !Unspent(c.entries, ref))
  {
    hide Unspent;
    forall ref | ref in s.tx.inputs && !Unspent(c.entries, ref) ensures exists w :: w in s.walletInputs && !Unspent(c.entries, w.ref) {
      var n :| 0 <= n < |s.tx.inputs| && s.tx.inputs[n] == ref;
      assert s.walletInputs[n] in s.walletInputs;
    }
    forall w | w in s.walletInputs && !Unspent(c.entries, w.ref) ensures exists ref :: ref in s.tx.inputs && !Unspent(c.entries, ref) {
      assert w.ref in s.tx.inputs;
    }
  }

  /** All wallet inputs are unspent at a tip beyond the bound and the margin. */
  predicate PastExpiry(s: SignedAdvert, chain: ChainState) {
    && s.validUntil.Some? && chain.tip > s.validUntil.value + ROLLBACK_SLOTS
    && forall ref :: ref in s.tx.inputs ==> Unspent(chain.entries, ref)
  }

  lemma EvidenceIs(cfg: Config, w: World, key: AdvertKey, chain: ChainState)
    requires Inv(cfg, w) && key in w.db.adverts
    ensures var s := w.db.adverts[key].signed;
      && (Examine(chain, s).FoundOutput? <==> Unspent(chain.entries, s.advertRef))
      && (Examine(chain, s).CannotConfirm? <==> !Unspent(chain.entries, s.advertRef) && PastExpiry(s, chain))
  {
    hide OpsOk, SentJournaled, ExpiredAreDead, ChainRun, ServiceOk, Unspent, AdvertRowChecked;
    AdvertRowFacts(cfg, w.db, key);
    InputsAreListed(cfg, w.db.adverts[key].signed, chain);
  }

  /** The read of an advert's chain evidence: what it writes, and what phase it asks for. */
  lemma EvidenceDecides(cfg: Config, w: World, id: PublicationId, i: nat, at: Time, w': World)
    requires Inv(cfg, w) && PublishStep(cfg, w, id, ResolveReads(i), at, w')
    ensures
      && id in w.publishOps && w.publishOps[id].Resolving? && i < |w.history|
      && id in w'.publishOps && w'.publishOps[id].Recording? && w'.publishOps[id].phase == w.publishOps[id].phase
      && if AdvertKey(id, 1) !in w.db.adverts then w'.db == w.db && w'.publishOps[id].to == Some(Prepared)
         else
           var row, chain, to := w.db.adverts[AdvertKey(id, 1)], w.history[i], w'.publishOps[id].to;
           if Unspent(chain.entries, row.signed.advertRef) then
             && to == Some(Publishing)
             && w'.db == w.db.(adverts := w.db.adverts[AdvertKey(id, 1) :=
                  row.(confirmedAt := if row.confirmedAt.Some? then row.confirmedAt else Some(at))])
           else if !w.publishOps[id].confirmed && PastExpiry(row.signed, chain) then
             && to == Some(Failed)
             && w'.db == w.db.(adverts := w.db.adverts[AdvertKey(id, 1) :=
                  if row.confirmedAt.None? && row.endedAt.None? then row.(endedAt := Some(at), endReason := Some(Expired)) else row])
           else w'.db == w.db && to == None
  {
    hide OpsOk, SentJournaled, ExpiredAreDead, ChainRun, ServiceOk, Unspent, Examine, PastExpiry;
    var key := AdvertKey(id, 1);
    if key in w.db.adverts {
      EvidenceIs(cfg, w, key, w.history[i]);
      assert w.db.adverts[key := w.db.adverts[key]] == w.db.adverts;
    }
  }

  /** The phase is written unless another operation changed it since the resolution began. */
  lemma PhaseFollows(cfg: Config, w: World, id: PublicationId, at: Time, w': World)
    requires Inv(cfg, w) && PublishStep(cfg, w, id, ResolveRecords, at, w') && id in w.db.publications
    requires w.publishOps[id].to == Some(Prepared) ==> AdvertKey(id, 1) !in w.db.adverts
    ensures id !in w'.publishOps
    ensures var op, phase := w.publishOps[id], w.db.publications[id].phase;
      if phase == op.phase then OnlyPhase(w.db, w'.db, id, if op.to.Some? then op.to.value else phase, at) else w'.db == w.db
  {
    hide AdvertsChecked, RetirementsOk, PublishedConfirmed, LaterArePublished, SentJournaled, ExpiredAreDead, ChainRun, AdvertOpsOk, StartOpsOk,
         AdvertRowsOk, TxIndexOk, LiveIndexOk, RetirementRowsOk, S.GenerationsContiguous, S.AdvertsInSlot;
    assert PublishOpOk(w.db, id, w.publishOps[id]);
  }

  /**
   A resolution from its beginning to its end, while no other operation changes
   the phase: an unspent journaled output confirms the advert and puts the
   publication in Publishing. Otherwise, for an advert that was unconfirmed at the
   beginning, all wallet inputs unspent at a tip past the bound and the margin end
   it as expired and fail the publication. A missing advert means that nothing was
   signed. No other evidence changes an advert or the phase.
   */
  lemma ResolutionOutcome(cfg: Config, a: World, a': World, b: World, b': World, c: World, c': World, id: PublicationId, i: nat,
                          resolving: Phase, began: Time, read: Time, recorded: Time)
    requires Inv(cfg, a) && Inv(cfg, b) && Inv(cfg, c)
    requires PublishStep(cfg, a, id, ResolveBegins, began, a') && SamePublishOp(a', b, id)
    requires PublishStep(cfg, b, id, ResolveReads(i), read, b') && SamePublishOp(b', c, id)
    requires PublishStep(cfg, c, id, ResolveRecords, recorded, c')
    requires id in a.db.publications && a.db.publications[id].phase == resolving
    requires id in c.db.publications && c.db.publications[id].phase == resolving
    requires AdvertKey(id, 1) in c.db.adverts ==> AdvertKey(id, 1) in b.db.adverts
    ensures i < |b.history|
    ensures AdvertKey(id, 1) !in b.db.adverts ==> b'.db == b.db && OnlyPhase(c.db, c'.db, id, Prepared, recorded)
    ensures AdvertKey(id, 1) in b.db.adverts ==>
      var key, row, chain := AdvertKey(id, 1), b.db.adverts[AdvertKey(id, 1)], b.history[i];
      if Unspent(chain.entries, row.signed.advertRef) then
        && key in b'.db.adverts && b'.db.adverts[key].confirmedAt.Some?
        && b'.db == b.db.(adverts := b.db.adverts[key := row.(confirmedAt := b'.db.adverts[key].confirmedAt)])
        && OnlyPhase(c.db, c'.db, id, Publishing, recorded)
      else if (key in a.db.adverts ==> a.db.adverts[key].confirmedAt.None?)
              && (forall ref :: ref in row.signed.tx.inputs ==> Unspent(chain.entries, ref))
              && row.signed.validUntil.Some? && chain.tip > row.signed.validUntil.value + ROLLBACK_SLOTS then
        && b'.db == (if row.confirmedAt.Some? || row.endedAt.Some? then b.db
                     else b.db.(adverts := b.db.adverts[key := row.(endedAt := Some(read), endReason := Some(Expired))]))
        && OnlyPhase(c.db, c'.db, id, Failed, recorded)
      else b'.db == b.db && OnlyPhase(c.db, c'.db, id, resolving, recorded)
  {
    hide Inv, Unspent, OnlyPhase, RecordEvidence, RecordPhase;
    EvidenceDecides(cfg, b, id, i, read, b');
    PhaseFollows(cfg, c, id, recorded, c');
  }

  // ----- Preparation and publishing -----

  /**
   A preparation starts a new publication, or a failed one that has not signed, in
   a slot that no other publication holds; it succeeds in exactly these states. All
   inputs are the given ones, and an earlier image is forgotten.
   */
  lemma PreparationStarts(db: Db, id: PublicationId, n: S.NewPublication, at: Time)
    ensures var done := if id in db.publications then S.Retry(db, id, n, at) else S.Create(db, id, n, at);
      && (done.Ok? <==>
            && (id in db.publications ==> db.publications[id].phase == Failed && db.publications[id].tx.None?)
            && forall other :: other in db.publications && other != id && db.publications[other].target == n.target ==>
                 db.publications[other].phase == Failed && db.publications[other].tx.None?)
      && (done.Ok? ==>
            && id in done.value.publications
            && done.value == db.(publications := db.publications[id := done.value.publications[id]])
            && var row := done.value.publications[id];
               && row.phase == Preparing && row.tx.None? && row.runtimeImage.None? && row.preparedAt.None? && row.updatedAt == at
               && row.target == n.target && row.requestHash == n.requestHash && row.terms == n.terms && row.artifact == n.artifact
               && row.workDir == n.workDir && row.supplierPkh == n.supplierPkh && row.endpointUrl == n.endpointUrl)
  {
  }

  /** A built image prepares the publication, and nothing else does; a failed build fails it. */
  lemma PreparationEnds(cfg: Config, w: World, id: PublicationId, image: Option<nat>, at: Time, w': World)
    requires Inv(cfg, w) && PublishStep(cfg, w, id, PrepareEnds(image), at, w')
    ensures id in w.db.publications && w.db.publications[id].phase == Preparing
    ensures var row := w.db.publications[id];
      w'.db == w.db.(publications := w.db.publications[id :=
        if image.Some? then row.(phase := Prepared, runtimeImage := image, preparedAt := Some(at), updatedAt := at)
        else row.(phase := Failed, updatedAt := at)])
  {
  }

  /**
   What a publish journals before it submits: the built transaction as generation 1,
   unconfirmed, with the approval that the operator gave, and the same transaction
   in its publication, which had signed none.
   */
  lemma PublishJournals(cfg: Config, w: World, id: PublicationId, agent: Option<AgentId>, built: C.Built, visible: OutRef -> bool, at: Time, w': World)
    requires Inv(cfg, w) && PublishStep(cfg, w, id, PublishSigns(agent, built, visible), at, w')
    ensures AdvertKey(id, 1) !in w.db.adverts && AdvertKey(id, 1) in w'.db.adverts
    ensures var p, row := w.db.publications[id], w'.db.adverts[AdvertKey(id, 1)];
      && p.phase == Publishing && p.tx.None?
      && row == Advert(row.signed, 1, None, None, None, None)
      && row.signed.tx == built.tx && row.signed.advertRef == OutRef(built.tx, 0) && row.signed.target == cfg.slots[p.target].target
      && row.signed.maxDebit == w.publishOps[id].maxDebit && row.signed.signedAt == at
      && (row.signed.layout == Identity <==> agent.Some?) && row.signed.datum.AdvertDatum? && row.signed.datum.agent == agent
      && w'.db == Db(w.db.publications[id := p.(tx := Some(built.tx), advertRef := Some(OutRef(built.tx, 0)),
                                                actualDebit := Some(row.signed.walletDebit), updatedAt := at)],
                     w.db.adverts[AdvertKey(id, 1) := row], w.db.retirements)
  {
    hide ServiceOk, OpsOk, SentJournaled, ExpiredAreDead, ChainRun, C.AllTo, C.AllFrom, C.Listed, C.Total, C.Paid, C.Collateral,
         SlotFree, TxFresh, LayoutFree;
  }

  /**
   A publish that fails: with a journaled advert its outcome is unknown and it waits
   for evidence; without one nothing was sent and it is prepared again. A
   publication that is no longer publishing keeps its phase.
   */
  lemma FailedPublishOutcome(cfg: Config, w: World, id: PublicationId, at: Time, w': World)
    requires Inv(cfg, w) && PublishStep(cfg, w, id, PublishFails, at, w') && id in w.db.publications
    ensures id !in w'.publishOps
    ensures var phase := w.db.publications[id].phase;
      if phase != Publishing then w'.db == w.db
      else if AdvertKey(id, 1) in w.db.adverts then OnlyPhase(w.db, w'.db, id, ConfirmationPending, at)
      else OnlyPhase(w.db, w'.db, id, Prepared, at)
  {
    hide AdvertsChecked, RetirementsOk, PublishedConfirmed, LaterArePublished, SentJournaled, ExpiredAreDead, ChainRun, OpsOk,
         AdvertRowsOk, TxIndexOk, LiveIndexOk, RetirementRowsOk, S.GenerationsContiguous, S.AdvertsInSlot;
  }

  /** A confirmed submission confirms its advert, once, and changes no other row. */
  lemma ConfirmationOutcome(cfg: Config, w: World, id: PublicationId, i: nat, at: Time, w': World)
    requires Inv(cfg, w) && PublishStep(cfg, w, id, PublishConfirms(i), at, w')
    ensures AdvertKey(id, 1) in w.db.adverts && w.db.adverts[AdvertKey(id, 1)].signed.tx == w.publishOps[id].tx
    ensures var row := w.db.adverts[AdvertKey(id, 1)];
      w'.db == w.db.(adverts := w.db.adverts[AdvertKey(id, 1) := row.(confirmedAt := if row.confirmedAt.Some? then row.confirmedAt else Some(at))])
  {
    hide ServiceOk, AdvertOpsOk, StartOpsOk, SentJournaled, ExpiredAreDead, ChainRun, Included;
    assert PublishOpOk(w.db, id, w.publishOps[id]);
    var key := AdvertKey(id, 1);
    assert w.db.adverts[key := w.db.adverts[key]] == w.db.adverts;
  }

  // ----- Advertising again, the switch and the retirement -----

  lemma AdvertOpFacts(cfg: Config, w: World, target: TargetId)
    requires Inv(cfg, w) && target in w.advertOps
    ensures AdvertOpOk(w.db, w.advertOps[target]) && w.advertOps[target].key in w.db.adverts
  {
    hide ServiceOk, PublishOpsOk, StartOpsOk, SentJournaled, ExpiredAreDead, ChainRun;
  }

  /** Advertising again is journaled exactly for a published slot without a live advert of that layout, and for a new transaction. */
  lemma ReadvertSucceedsExactly(db: Db, t: SignedAdvert)
    requires S.JournalOk(db)
    ensures S.JournalReadvert(db, t).Ok? <==>
      && t.publication in db.publications && db.publications[t.publication].phase == Published && db.publications[t.publication].tx.Some?
      && db.publications[t.publication].target == t.target
      && forall k :: k in db.adverts ==>
           var row := db.adverts[k].signed;
           row.tx != t.tx && (row.target == t.target && row.layout == t.layout ==> db.adverts[k].endedAt.Some?)
  {
    hide SchemaOk, S.AdvertsInSlot, S.GenerationsContiguous, S.SignedNeverPublishable, S.NextGeneration;
    if t.publication in db.publications && db.publications[t.publication].tx.Some? {
      S.NextGenerationIsNext(db, t.publication);
    }
  }

  /** An attempt to retire is journaled exactly for a live advert and a new transaction. */
  lemma RetirementSucceedsExactly(db: Db, attempt: SignedRetirement)
    ensures S.JournalRetirement(db, attempt).Ok? <==>
      attempt.tx !in db.retirements && attempt.key in db.adverts && db.adverts[attempt.key].endedAt.None?
  {
  }

  /** The next generation repeats the publish offer, active, and names the approved agent. */
  lemma ReadvertJournals(cfg: Config, w: World, target: TargetId, built: C.Built, visible: OutRef -> bool, at: Time, w': World)
    requires ConfigOk(cfg) && Inv(cfg, w) && AdvertStep(cfg, w, target, ReadvertSigns(built, visible), at, w')
    ensures w'.advertOps[target].SubmittingReadvert? && w'.advertOps[target].tx == built.tx
    ensures var op, key := w.advertOps[target], w'.advertOps[target].key;
      && op.key in w.db.adverts && key !in w.db.adverts && key in w'.db.adverts && key.publication == op.key.publication && key.generation >= 2
      && AdvertKey(key.publication, key.generation - 1) in w.db.adverts
      && w'.db == w.db.(adverts := w.db.adverts[key := w'.db.adverts[key]])
      && var first, row := w.db.adverts[op.key].signed, w'.db.adverts[key];
         && row == Advert(row.signed, key.generation, None, None, None, None)
         && row.signed.tx == built.tx && row.signed.advertRef == OutRef(built.tx, 0) && row.signed.target == first.target
         && row.signed.maxDebit == op.maxDebit && row.signed.signedAt == at && row.signed.layout == Identity
         && first.datum.AdvertDatum? && row.signed.datum.AdvertDatum?
         && row.signed.datum.agent == Some(op.agent) && row.signed.datum.offer == first.datum.offer.(active := true)
  {
    hide AdvertsChecked, RetirementsOk, PublishedConfirmed, LaterArePublished, OpsOk, SentJournaled, ExpiredAreDead, ChainRun, S.NextGeneration,
         TxFresh, LayoutFree, C.AllTo, C.AllFrom, C.Listed, C.Total, C.Paid, C.Collateral, S.JournalOk;
    S.NextGenerationIsNext(w.db, w.advertOps[target].key.publication);
  }

  /** The evidence of a further generation decides as that of the publish advert does. */
  lemma ReadvertEvidenceDecides(cfg: Config, w: World, target: TargetId, i: nat, at: Time, w': World)
    requires Inv(cfg, w) && AdvertStep(cfg, w, target, ReadvertResolves(i), at, w')
    ensures
      && target in w.advertOps && w.advertOps[target].key in w.db.adverts && i < |w.history| && target !in w'.advertOps
      && var key, chain := w.advertOps[target].key, w.history[i];
         var row := w.db.adverts[key];
         if Unspent(chain.entries, row.signed.advertRef) then
           w'.db == w.db.(adverts := w.db.adverts[key := row.(confirmedAt := if row.confirmedAt.Some? then row.confirmedAt else Some(at))])
         else if PastExpiry(row.signed, chain) && row.confirmedAt.None? && row.endedAt.None? then
           w'.db == w.db.(adverts := w.db.adverts[key := row.(endedAt := Some(at), endReason := Some(Expired))])
         else w'.db == w.db
  {
    hide Inv, Unspent, Examine, PastExpiry, S.JournalOk, IsPublished, SwitchedTo, HasRetirement, S.LiveIdentityAdvert;
    var key := w.advertOps[target].key;
    AdvertOpFacts(cfg, w, target);
    EvidenceIs(cfg, w, key, w.history[i]);
    assert w.db.adverts[key := w.db.adverts[key]] == w.db.adverts;
  }

  /**
   The switch, once its advert was seen on chain: it is set exactly when the
   identity advert is still live and not yet switched, and from then on a switched
   advert is the one that is served.
   */
  lemma SwitchOutcome(cfg: Config, w: World, target: TargetId, i: nat, at: Time, w': World)
    requires Inv(cfg, w) && AdvertStep(cfg, w, target, SwitchEnds(i), at, w')
    ensures var key := w.advertOps[target].key;
      && key in w.db.adverts && w.db.adverts[key].signed.layout == Identity
      && var row := w.db.adverts[key];
         && w'.db == (if row.switchedAt.None? && row.confirmedAt.Some? && row.endedAt.None?
                      then w.db.(adverts := w.db.adverts[key := row.(switchedAt := Some(at))]) else w.db)
         && (row.confirmedAt.Some? && row.endedAt.None? ==>
               && w'.db.adverts[key].switchedAt.Some? && S.JournalOk(w'.db)
               && S.ServingAdvert(S.Adverts(w'.db, key.publication)).Some?
               && S.ServingAdvert(S.Adverts(w'.db, key.publication)).value.switchedAt.Some?)
  {
    hide PublishOpsOk, StartOpsOk, SentJournaled, ExpiredAreDead, ChainRun, S.JournalOk, AdvertsChecked, RetirementsOk, Unspent, PublishedConfirmed,
         LaterArePublished, S.ServingAdvert, S.Adverts;
    var key := w.advertOps[target].key;
    assert AdvertOpOk(w.db, w.advertOps[target]);
    var row := w.db.adverts[key];
    if row.confirmedAt.Some? && row.endedAt.None? {
      S.SwitchKeeps(w.db, key, at);
      assert AdvertKey(key.publication, key.generation) == key;
      S.SwitchedServes(w'.db, key.publication, key.generation);
    }
  }

  /** A retirement becomes known: the advert ends as retired, once, and the attempt that is named is confirmed, once. */
  predicate Retires(db: Db, db': Db, key: AdvertKey, named: Option<Tx>, at: Time) {
    && key in db.adverts && db'.publications == db.publications
    && db'.adverts == (if db.adverts[key].endedAt.None?
                       then db.adverts[key := db.adverts[key].(endedAt := Some(at), endReason := Some(Retired))] else db.adverts)
    && db'.retirements.Keys == db.retirements.Keys
    && forall tx :: tx in db.retirements ==>
         var row := db.retirements[tx];
         db'.retirements[tx] ==
           if named == Some(tx) && row.signed.key == key && row.confirmedAt.None? then row.(confirmedAt := Some(at)) else row
  }

  lemma RetireAdvertRetires(db: Db, key: AdvertKey, named: Option<Tx>, at: Time)
    requires key in db.adverts
    ensures Retires(db, S.RetireAdvert(db, key, named, at), key, named, at)
  {
  }

  lemma SettleStepFacts(cfg: Config, w: World, target: TargetId, i: nat, retiredBy: Option<Tx>, at: Time, w': World)
    requires w.history != [] && S.JournalOk(w.db) && AdvertStep(cfg, w, target, SettleEnds(i, retiredBy), at, w')
    ensures target in w.advertOps && w.advertOps[target].Settling? && i < |w.history|
    ensures w'.db == Settle(w.db, w.advertOps[target].key, w.history[i], retiredBy, at)
    ensures w'.advertOps == if Sees(w, i, w.advertOps[target].key) then w.advertOps[target := Settled(w.advertOps[target].key, i)]
                            else w.advertOps - {target}
  {
    hide S.JournalOk, Unspent, Settle, Sees;
  }

  /** A settling read retires the legacy advert exactly when its output is missing; a visible output changes nothing. */
  lemma SettleOutcome(cfg: Config, w: World, target: TargetId, i: nat, retiredBy: Option<Tx>, at: Time, w': World)
    requires Inv(cfg, w) && AdvertStep(cfg, w, target, SettleEnds(i, retiredBy), at, w')
    ensures
      && target in w.advertOps && i < |w.history|
      && var key := w.advertOps[target].key;
         && key in w.db.adverts && w.db.adverts[key].signed.layout == Legacy
         && if Unspent(w.history[i].entries, w.db.adverts[key].signed.advertRef)
            then w'.db == w.db && target in w'.advertOps && w'.advertOps[target] == Settled(key, i)
            else Retires(w.db, w'.db, key, retiredBy, at) && target !in w'.advertOps
  {
    hide OpsOk, ServiceOk, SentJournaled, ExpiredAreDead, ChainRun, S.RetireAdvert, Retires, AdvertStep, Unspent;
    InvMeansStored(cfg, w);
    SettleStepFacts(cfg, w, target, i, retiredBy, at, w');
    AdvertOpFacts(cfg, w, target);
    RetireAdvertRetires(w.db, w.advertOps[target].key, retiredBy, at);
  }

  lemma RetireStepFacts(cfg: Config, w: World, target: TargetId, i: nat, at: Time, w': World)
    requires w.history != [] && S.JournalOk(w.db) && AdvertStep(cfg, w, target, RetireConfirms(i), at, w')
    ensures target in w.advertOps && w.advertOps[target].AwaitingRetirement?
    ensures w' == w.(db := S.RetireAdvert(w.db, w.advertOps[target].key, Some(w.advertOps[target].tx), at), advertOps := w.advertOps - {target})
  {
    hide S.JournalOk, Included, S.RetireAdvert;
  }

  /** A retirement that a block carries ends its advert and confirms the attempt that was submitted. */
  lemma RetirementOutcome(cfg: Config, w: World, target: TargetId, i: nat, at: Time, w': World)
    requires Inv(cfg, w) && AdvertStep(cfg, w, target, RetireConfirms(i), at, w')
    ensures
      && target in w.advertOps && w.advertOps[target].AwaitingRetirement? && target !in w'.advertOps
      && var op := w.advertOps[target];
         && Retires(w.db, w'.db, op.key, Some(op.tx), at)
         && op.tx in w'.db.retirements && w'.db.retirements[op.tx].confirmedAt.Some?
         && op.key in w'.db.adverts && w'.db.adverts[op.key].endedAt.Some?
  {
    hide OpsOk, ServiceOk, SentJournaled, ExpiredAreDead, ChainRun, S.RetireAdvert, AdvertStep;
    InvMeansStored(cfg, w);
    RetireStepFacts(cfg, w, target, i, at, w');
    AdvertOpFacts(cfg, w, target);
    RetireAdvertRetires(w.db, w.advertOps[target].key, Some(w.advertOps[target].tx), at);
  }

  /** What a retirement journals before it submits: the built transaction as an unconfirmed attempt on the advert. */
  lemma RetirementJournals(cfg: Config, w: World, target: TargetId, built: C.Built, visible: OutRef -> bool, at: Time, w': World)
    requires Inv(cfg, w) && AdvertStep(cfg, w, target, RetireSigns(built, visible), at, w')
    ensures
      && target in w.advertOps && w.advertOps[target].ReadyToRetire? && target in w'.advertOps
      && var op := w.advertOps[target];
         && op.key in w.db.adverts && w.db.adverts[op.key].endedAt.None? && built.tx !in w.db.retirements && built.tx in w'.db.retirements
         && w'.db == w.db.(retirements := w.db.retirements[built.tx := w'.db.retirements[built.tx]])
         && w'.advertOps[target] == SubmittingRetirement(op.key, built.tx)
         && var row := w'.db.retirements[built.tx];
            && row.confirmedAt.None? && row.signed.tx == built.tx && row.signed.key == op.key && row.signed.maxDebit == op.maxDebit
            && row.signed.signedAt == at && row.signed.fee == built.tx.fee && row.signed.validUntil == built.tx.validUntil
  {
    hide Inv, S.JournalOk, C.RetiresAdvert, C.Collateral, C.RetireDebit, C.Listed, C.Others, IsPublished, SwitchedTo, HasRetirement;
  }

  // ----- The supplier -----

  /** A supplier start that saw its advert on chain confirms it; when the supplier serves, the publication is published. */
  lemma StartOutcome(cfg: Config, w: World, target: TargetId, at: Time, w': World)
    requires Inv(cfg, w) && StartStep(w, target, StartEnds, at, w')
    ensures target !in w'.startOps
    ensures var op := w.startOps[target];
      && target in w'.children && w'.children[target] == op.key
      && op.id in w.db.publications && op.key in w.db.adverts && w.db.adverts[op.key].confirmedAt.Some?
      && var p := w.db.publications[op.id];
         w'.db == w.db.(publications := w.db.publications[op.id :=
           if p.phase == Published then p.(updatedAt := at) else p.(phase := Published, publishedAt := Some(at), updatedAt := at)])
  {
    hide AdvertsChecked, RetirementsOk, PublishedConfirmed, LaterArePublished, PublishOpsOk, AdvertOpsOk, SentJournaled, ExpiredAreDead, ChainRun,
         AdvertRowsOk, TxIndexOk, LiveIndexOk, RetirementRowsOk, S.GenerationsContiguous, S.AdvertsInSlot;
    var op := w.startOps[target];
    assert StartOpOk(w.db, op);
    StartedIsSigned(cfg, w.db, op.key);
  }

  lemma StartedIsSigned(cfg: Config, db: Db, key: AdvertKey)
    requires ServiceOk(cfg, db) && key in db.adverts
    ensures key.publication in db.publications && db.publications[key.publication].tx.Some?
  {
    hide AdvertsChecked, RetirementsOk;
    S.AdvertMeansSigned(db, key);
  }
}

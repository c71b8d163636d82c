/**
 What every run of the publisher keeps, over crashes, expired attempts and
 rollbacks: the service invariant on the stored rows, the finality of every
 advert that ended as expired, and what the running operations may rely on.
 */
module PublisherSafety {
  import opened Prelude
  import opened Ledger
  import opened PublisherTables
  import C = AdvertCheck
  import S = PublisherStore
  import opened PublisherService
  import opened PublisherProtocol

  predicate IsExpired(adverts: map<AdvertKey, Advert>, key: AdvertKey) {
    key in adverts && adverts[key].endReason == Some(Expired)
  }

  /** An expired advert is on no block of the adopted chain and can enter none. */
  ghost predicate ExpiredAreDead(db: Db, c: ChainState) {
    forall k :: IsExpired(db.adverts, k) ==> Dead(c, db.adverts[k].signed.tx)
  }

  /** A publish that has signed holds the journaled publish advert; one that resolves began before it was published. */
  ghost predicate PublishOpOk(db: Db, id: PublicationId, op: PublishOp) {
    && (op.Submitting? || op.Awaiting? ==> AdvertKey(id, 1) in db.adverts && db.adverts[AdvertKey(id, 1)].signed.tx == op.tx)
    && (op.Resolving? || op.Recording? ==> op.phase == Publishing || op.phase == ConfirmationPending)
    && (op.Recording? ==> op.to.None? || op.to.value == Prepared || op.to.value == Publishing || op.to.value == Failed)
  }

  ghost predicate PublishOpsOk(w: World) {
    forall id :: id in w.publishOps ==> PublishOpOk(w.db, id, w.publishOps[id])
  }

  ghost predicate AdvertOpOk(db: Db, op: AdvertOp) {
    && op.key in db.adverts
    && (op.SubmittingReadvert? || op.AwaitingReadvert? ==> db.adverts[op.key].signed.tx == op.tx)
    && (op.SubmittingRetirement? || op.AwaitingRetirement? ==>
          op.tx in db.retirements && db.retirements[op.tx].signed.key == op.key)
    && (op.Switching? ==> db.adverts[op.key].signed.layout == Identity)
    && (op.Settling? || op.Settled? || op.ReadyToRetire? ==> db.adverts[op.key].signed.layout == Legacy)
    && (op.ReadyToRetire? ==> IsPublished(db, op.key.publication) && HasSwitched(db.adverts, op.key.publication))
  }

  ghost predicate AdvertOpsOk(w: World) {
    forall t :: t in w.advertOps ==> AdvertOpOk(w.db, w.advertOps[t])
  }

  /** A start serves the publish advert, or another advert of a published slot. */
  ghost predicate StartOpOk(db: Db, op: StartOp) {
    && op.id in db.publications && op.key in db.adverts && op.key.publication == op.id
    && (op.key.generation == 1 || IsPublished(db, op.id))
    && (op.Started? ==> db.adverts[op.key].confirmedAt.Some?)
  }

  ghost predicate StartOpsOk(w: World) {
    forall t :: t in w.startOps ==> StartOpOk(w.db, w.startOps[t])
  }

  ghost predicate OpsOk(w: World) {
    PublishOpsOk(w) && AdvertOpsOk(w) && StartOpsOk(w)
  }

  ghost predicate SentJournaled(w: World) {
    forall tx :: tx in w.sent ==> IsJournaled(w.db, tx)
  }

  ghost predicate Inv(cfg: Config, w: World) {
    && w.history != [] && ServiceOk(cfg, w.db) && ChainRun(w.history) && ExpiredAreDead(w.db, Current(w))
    && OpsOk(w) && SentJournaled(w)
  }

  // ----- Which operations end an advert as expired -----

  /** Every advert that the change expired was, by then, dead on chain `c`. */
  ghost predicate ExpiresOnlyDead(db: Db, db': Db, c: ChainState) {
    forall k :: IsExpired(db'.adverts, k) && !IsExpired(db.adverts, k) ==> Dead(c, db'.adverts[k].signed.tx)
  }

  lemma UntouchedExpiresNone(db: Db, db': Db, c: ChainState)
    requires Touches(db, db', {})
    ensures ExpiresOnlyDead(db, db', c)
  {
    hide Dead;
  }

  lemma ConfirmExpiresNone(db: Db, key: AdvertKey, at: Time, c: ChainState)
    ensures ExpiresOnlyDead(db, S.ConfirmAdvert(db, key, at), c)
  {
    hide Dead;
  }

  lemma SwitchExpiresNone(db: Db, key: AdvertKey, at: Time, c: ChainState)
    ensures ExpiresOnlyDead(db, OrSame(db, S.SwitchAdvert(db, key, at)), c)
  {
    hide Dead;
  }

  lemma RetireExpiresNone(db: Db, key: AdvertKey, tx: Option<Tx>, at: Time, c: ChainState)
    ensures ExpiresOnlyDead(db, S.RetireAdvert(db, key, tx, at), c)
  {
    hide Dead;
  }

  /** "Cannot confirm" is expiry evidence for a checked row. */
  lemma CannotConfirmIsEvidence(cfg: Config, s: SignedAdvert, c: ChainState)
    requires AdvertRowChecked(cfg, s) && Examine(c, s).CannotConfirm?
    ensures ExpiryEvidence(c, s.tx, ROLLBACK_SLOTS)
  {
    forall r | r in s.tx.inputs ensures Unspent(c.entries, r) {
      var n :| 0 <= n < |s.tx.inputs| && s.tx.inputs[n] == r;
      assert s.walletInputs[n] in s.walletInputs && s.walletInputs[n].ref == r;
    }
  }

  /** Evidence from any chain the node adopted means the transaction is dead on the current one. */
  lemma OldEvidenceMeansDead(w: World, i: nat, tx: Tx)
    requires ChainRun(w.history) && i < |w.history| && ExpiryEvidence(w.history[i], tx, ROLLBACK_SLOTS)
    ensures Dead(Current(w), tx)
  {
    ExpiredNeverEnters(w.history, i, |w.history| - 1, tx);
  }

  lemma ExpireExpiresDead(cfg: Config, w: World, key: AdvertKey, i: nat, at: Time)
    requires Inv(cfg, w) && i < |w.history|
    requires key in w.db.adverts && Examine(w.history[i], w.db.adverts[key].signed).CannotConfirm?
    ensures ExpiresOnlyDead(w.db, S.ExpireAdvert(w.db, key, at), Current(w))
  {
    hide Dead, Examine, ExpiryEvidence, S.JournalOk, Kept, RetirementsOk, ChainRun;
    CannotConfirmIsEvidence(cfg, w.db.adverts[key].signed, w.history[i]);
    OldEvidenceMeansDead(w, i, w.db.adverts[key].signed.tx);
  }

  lemma RecordEvidenceExpiresDead(cfg: Config, w: World, id: PublicationId, confirmed: bool, i: nat, at: Time)
    requires Inv(cfg, w) && w.history != [] && i < |w.history|
    ensures ExpiresOnlyDead(w.db, RecordEvidence(w.db, id, confirmed, w.history[i], at).0, Current(w))
  {
    hide Dead, Examine, Unspent, Inv;
    var key := AdvertKey(id, 1);
    ConfirmExpiresNone(w.db, key, at, Current(w));
    if key in w.db.adverts && Examine(w.history[i], w.db.adverts[key].signed).CannotConfirm? {
      ExpireExpiresDead(cfg, w, key, i, at);
    }
  }

  // ----- One step keeps the invariant -----

  /** The one advert whose confirmation, switch or end a step can set. */
  function PublishTouches(id: PublicationId, m: PublishMove): set<AdvertKey> {
    if m.PublishConfirms? || m.ResolveReads? then {AdvertKey(id, 1)} else {}
  }

  function AdvertTouches(w: World, target: TargetId, m: AdvertMove): set<AdvertKey> {
    if (m.ReadvertConfirms? || m.RetireConfirms? || m.ReadvertResolves? || m.SwitchEnds? || m.SettleEnds?) && target in w.advertOps
    then {w.advertOps[target].key} else {}
  }

  function StartTouches(w: World, target: TargetId, m: StartMove): set<AdvertKey> {
    if m.StartConfirms? && target in w.startOps then {w.startOps[target].key} else {}
  }

  function StepTouches(w: World, step: Step): set<AdvertKey> {
    match step
    case Publish(id, p, _) => PublishTouches(id, p)
    case Adverts(target, a, _) => AdvertTouches(w, target, a)
    case Start(target, s, _) => StartTouches(w, target, s)
    case _ => {}
  }

  lemma AdvertOpStaysOk(db: Db, db': Db, op: AdvertOp)
    requires AdvertOpOk(db, op) && Forward(db, db')
    ensures AdvertOpOk(db', op)
  {
    assert AdvertsKept(db.adverts, db'.adverts) && RetirementsKept(db.retirements, db'.retirements);
    if op.ReadyToRetire? {
      SwitchSurvives(db.adverts, db'.adverts, op.key.publication);
    }
  }

  lemma PublishOpStaysOk(db: Db, db': Db, id: PublicationId, op: PublishOp)
    requires PublishOpOk(db, id, op) && Forward(db, db')
    ensures PublishOpOk(db', id, op)
  {
    assert AdvertsKept(db.adverts, db'.adverts);
  }

  /** A change of the tables alone, of the shape that every store operation has. */
  lemma TablesChangeKeeps(cfg: Config, w: World, w': World)
    requires Inv(cfg, w) && ServiceOk(cfg, w'.db) && Forward(w.db, w'.db)
    requires ExpiresOnlyDead(w.db, w'.db, Current(w))
    requires w'.history == w.history && w'.sent == w.sent
    requires forall id :: id in w'.publishOps ==>
      PublishOpOk(w'.db, id, w'.publishOps[id]) || (id in w.publishOps && w'.publishOps[id] == w.publishOps[id])
    requires forall t :: t in w'.advertOps ==>
      AdvertOpOk(w'.db, w'.advertOps[t]) || (t in w.advertOps && w'.advertOps[t] == w.advertOps[t])
    requires forall t :: t in w'.startOps ==>
      StartOpOk(w'.db, w'.startOps[t]) || (t in w.startOps && w'.startOps[t] == w.startOps[t])
    ensures Inv(cfg, w')
  {
    hide ServiceOk, Dead, ChainRun, AdvertOpOk, StartOpOk, PublishOpOk;
    KeptRowsStay(w.db, w'.db);
    forall id | id in w'.publishOps ensures PublishOpOk(w'.db, id, w'.publishOps[id]) {
      if id in w.publishOps && w'.publishOps[id] == w.publishOps[id] {
        PublishOpStaysOk(w.db, w'.db, id, w.publishOps[id]);
      }
    }
    forall t | t in w'.advertOps ensures AdvertOpOk(w'.db, w'.advertOps[t]) {
      if t in w.advertOps && w'.advertOps[t] == w.advertOps[t] {
        AdvertOpStaysOk(w.db, w'.db, w.advertOps[t]);
      }
    }
    forall t | t in w'.startOps ensures StartOpOk(w'.db, w'.startOps[t]) {
      if t in w.startOps && w'.startOps[t] == w.startOps[t] {
        StartOpStaysOk(w.db, w'.db, w.startOps[t]);
      }
    }
    assert ExpiredAreDead(w'.db, Current(w'));
    assert SentJournaled(w');
  }

  lemma KeptRowsStay(db: Db, db': Db)
    requires Kept(db, db')
    ensures forall k :: k in db.adverts ==> k in db'.adverts && db'.adverts[k].signed == db.adverts[k].signed
    ensures forall tx :: IsJournaled(db, tx) ==> IsJournaled(db', tx)
    ensures forall k :: HasRetirement(db, k) ==> HasRetirement(db', k)
  {
    assert AdvertsKept(db.adverts, db'.adverts) && RetirementsKept(db.retirements, db'.retirements);
    forall k | HasRetirement(db, k) ensures HasRetirement(db', k) {
      var t :| t in db.retirements && db.retirements[t].signed.key == k;
      assert t in db'.retirements && db'.retirements[t].signed.key == k;
    }
    forall tx | IsJournaled(db, tx) ensures IsJournaled(db', tx) {
      if tx !in db.retirements {
        var k :| k in db.adverts && db.adverts[k].signed.tx == tx;
        assert k in db'.adverts && db'.adverts[k].signed.tx == tx;
      }
    }
  }

  lemma StartOpStaysOk(db: Db, db': Db, op: StartOp)
    requires StartOpOk(db, op) && Forward(db, db')
    ensures StartOpOk(db', op)
  {
    assert PublicationsKept(db.publications, db'.publications) && AdvertsKept(db.adverts, db'.adverts);
  }

  lemma UpdatePhaseKeeps(cfg: Config, db: Db, id: PublicationId, from: Phase, patch: S.Patch, at: Time)
    requires ServiceOk(cfg, db) && S.Update(db, id, {from}, patch, at).Ok?
    requires from != Published && patch.phase != Some(Published)
    ensures var db' := S.Update(db, id, {from}, patch, at).value;
      ServiceOk(cfg, db') && Forward(db, db') && Touches(db, db', {})
  {
    hide ServiceOk, Forward;
    UpdateKeeps(cfg, db, id, {from}, patch, at);
  }

  lemma PublishSignsKeeps(cfg: Config, db: Db, id: PublicationId, agent: Option<AgentId>, built: C.Built,
                          visible: OutRef -> bool, maxDebit: nat, at: Time)
    requires ConfigOk(cfg) && ServiceOk(cfg, db) && id in db.publications && db.publications[id].target in cfg.slots
    requires var slot := cfg.slots[db.publications[id].target];
      var expected := AdvertDatum(PublishOffer(slot, db.publications[id]), 0, agent);
      && Approved(slot, expected, built, visible, maxDebit)
      && S.Journal(db, C.SignedFrom(id, slot, expected, built.tx, maxDebit, at), at).Ok?
    ensures var slot := cfg.slots[db.publications[id].target];
      var expected := AdvertDatum(PublishOffer(slot, db.publications[id]), 0, agent);
      var db' := S.Journal(db, C.SignedFrom(id, slot, expected, built.tx, maxDebit, at), at).value;
      ServiceOk(cfg, db') && Forward(db, db') && Touches(db, db', {})
  {
    hide ServiceOk, Forward, Touches, S.Journal, AdvertRowChecked, C.PostsAdvert;
    var target := db.publications[id].target;
    var slot := cfg.slots[target];
    var expected := AdvertDatum(PublishOffer(slot, db.publications[id]), 0, agent);
    CheckedAdvertIsRow(cfg, id, expected, built, visible, target, maxDebit, at);
    JournalKeeps(cfg, db, C.SignedFrom(id, slot, expected, built.tx, maxDebit, at), at);
  }

  /** Preparation and the beginning of a publish. */
  lemma PreparationKeeps(cfg: Config, w: World, id: PublicationId, m: PublishMove, at: Time, w': World)
    requires ConfigOk(cfg) && Inv(cfg, w) && PublishStep(cfg, w, id, m, at, w')
    requires m.Prepares? || m.PrepareEnds? || m.ImageRebuilt? || m.PublishBegins?
    ensures Inv(cfg, w') && Forward(w.db, w'.db) && Touches(w.db, w'.db, {})
  {
    hide ServiceOk, ConfigOk, Forward, Touches, ExpiresOnlyDead, ExpiredAreDead, AdvertOpsOk, StartOpsOk, SentJournaled, ChainRun,
         RecordEvidence, RecordPhase, S.Retry, S.Create, S.Update, S.Journal, S.ConfirmAdvert, Approved, Included, PublishOpOk;
    var db, c := w.db, Current(w);
    match m
    case Prepares(n) =>
      if id in db.publications { RetryKeeps(cfg, db, id, n, at); } else { CreateKeeps(cfg, db, id, n, at); }
      UntouchedExpiresNone(db, w'.db, c);
      TablesChangeKeeps(cfg, w, w');
    case PrepareEnds(image) =>
      UpdatePhaseKeeps(cfg, db, id, Preparing, PreparePatch(image, at), at);
      UntouchedExpiresNone(db, w'.db, c);
      TablesChangeKeeps(cfg, w, w');
    case ImageRebuilt(rebuilt) =>
      PhaseUpdateKeeps(cfg, db, id, db.publications[id].phase, S.Patch(None, Some(rebuilt), None, None), at);
      UntouchedExpiresNone(db, w'.db, c);
      TablesChangeKeeps(cfg, w, w');
    case PublishBegins(maxDebit) =>
      UpdatePhaseKeeps(cfg, db, id, Prepared, ToPhase(Publishing), at);
      UntouchedExpiresNone(db, w'.db, c);
      SigningOk(w'.db, id, maxDebit);
      TablesChangeKeeps(cfg, w, w');
  }

  lemma PublishStepKeeps(cfg: Config, w: World, id: PublicationId, m: PublishMove, at: Time, w': World)
    requires ConfigOk(cfg) && Inv(cfg, w) && PublishStep(cfg, w, id, m, at, w')
    ensures Inv(cfg, w') && Forward(w.db, w'.db) && Touches(w.db, w'.db, PublishTouches(id, m))
  {
    hide ServiceOk, ConfigOk, Forward, Touches, ExpiresOnlyDead, ExpiredAreDead, AdvertOpsOk, StartOpsOk, SentJournaled, ChainRun,
         RecordEvidence, RecordPhase, S.Retry, S.Create, S.Update, S.Journal, S.ConfirmAdvert, Approved, Included, PublishOpOk;
    var db, c := w.db, Current(w);
    match m
    case PublishSigns(agent, built, visible) =>
      PublishSignsKeeps(cfg, db, id, agent, built, visible, w.publishOps[id].maxDebit, at);
      UntouchedExpiresNone(db, w'.db, c);
      SignedOpOk(cfg, db, id, agent, built, visible, w.publishOps[id].maxDebit, at);
      TablesChangeKeeps(cfg, w, w');
    case PublishSubmits =>
      assert PublishOpOk(db, id, w.publishOps[id]);
      PublishSubmitsKeeps(cfg, w, id, w');
    case PublishConfirms(i) =>
      ConfirmKeeps(cfg, db, AdvertKey(id, 1), at);
      ConfirmExpiresNone(db, AdvertKey(id, 1), at, c);
      TablesChangeKeeps(cfg, w, w');
    case PublishFails =>
      PhaseUpdateKeeps(cfg, db, id, Publishing,
        ToPhase(if AdvertKey(id, 1) in db.adverts then ConfirmationPending else Prepared), at);
      UntouchedExpiresNone(db, w'.db, c);
      TablesChangeKeeps(cfg, w, w');
    case ResolveBegins => ResolveBeginsKeeps(cfg, w, id, w');
    case ResolveReads(i) =>
      RecordEvidenceKeeps(cfg, db, id, w.publishOps[id].confirmed, w.history[i], at);
      RecordEvidenceExpiresDead(cfg, w, id, w.publishOps[id].confirmed, i, at);
      RecordingOk(db, w'.db, id, w.publishOps[id], RecordEvidence(db, id, w.publishOps[id].confirmed, w.history[i], at).1);
      TablesChangeKeeps(cfg, w, w');
    case ResolveRecords =>
      RecordingFacts(db, id, w.publishOps[id]);
      RecordPhaseKeeps(cfg, db, id, w.publishOps[id].phase, w.publishOps[id].to, at);
      UntouchedExpiresNone(db, w'.db, c);
      TablesChangeKeeps(cfg, w, w');
    case _ => PreparationKeeps(cfg, w, id, m, at, w');
  }

  lemma SigningOk(db: Db, id: PublicationId, maxDebit: nat)
    ensures PublishOpOk(db, id, Signing(maxDebit))
  {
  }

  lemma SignedOpOk(cfg: Config, db: Db, id: PublicationId, agent: Option<AgentId>, built: C.Built, visible: OutRef -> bool, maxDebit: nat, at: Time)
    requires id in db.publications && db.publications[id].target in cfg.slots
    requires var slot := cfg.slots[db.publications[id].target];
      var expected := AdvertDatum(PublishOffer(slot, db.publications[id]), 0, agent);
      && Approved(slot, expected, built, visible, maxDebit)
      && S.Journal(db, C.SignedFrom(id, slot, expected, built.tx, maxDebit, at), at).Ok?
    ensures var slot := cfg.slots[db.publications[id].target];
      var expected := AdvertDatum(PublishOffer(slot, db.publications[id]), 0, agent);
      PublishOpOk(S.Journal(db, C.SignedFrom(id, slot, expected, built.tx, maxDebit, at), at).value, id, Submitting(built.tx))
  {
    hide Accepts, C.AllTo, C.AllFrom, C.Listed;
  }

  lemma RecordingOk(db: Db, db': Db, id: PublicationId, op: PublishOp, to: Option<Phase>)
    requires PublishOpOk(db, id, op) && op.Resolving?
    requires to.None? || to.value == Prepared || to.value == Publishing || to.value == Failed
    ensures PublishOpOk(db', id, Recording(op.phase, to))
  {
  }

  lemma RecordingFacts(db: Db, id: PublicationId, op: PublishOp)
    requires PublishOpOk(db, id, op) && op.Recording?
    ensures op.phase != Published && op.to != Some(Published)
  {
  }

  /** The transaction that a publish holds is the journaled one, so submitting it keeps what was sent journaled. */
  lemma PublishSubmitsKeeps(cfg: Config, w: World, id: PublicationId, w': World)
    requires Inv(cfg, w) && id in w.publishOps && w.publishOps[id].Submitting?
    requires w' == w.(sent := w.sent + {w.publishOps[id].tx}, publishOps := w.publishOps[id := Awaiting(w.publishOps[id].tx)])
    ensures Inv(cfg, w') && Forward(w.db, w'.db) && Touches(w.db, w'.db, {})
  {
    hide ServiceOk, ChainRun, Dead;
    ForwardReflexive(w.db);
    assert PublishOpOk(w.db, id, w.publishOps[id]);
    assert IsJournaled(w.db, w.publishOps[id].tx);
    assert StartOpsOk(w') && AdvertOpsOk(w') && PublishOpsOk(w');
    assert ExpiredAreDead(w'.db, Current(w')) && SentJournaled(w');
  }

  lemma ResolveBeginsKeeps(cfg: Config, w: World, id: PublicationId, w': World)
    requires Inv(cfg, w) && id in w.db.publications
    requires w.db.publications[id].phase == Publishing || w.db.publications[id].phase == ConfirmationPending
    requires w' == w.(publishOps := w.publishOps[id := Resolving(Last(w), w.db.publications[id].phase, PublishConfirmed(w.db, id))])
    ensures Inv(cfg, w') && Forward(w.db, w'.db) && Touches(w.db, w'.db, {})
  {
    hide ServiceOk, ChainRun, Dead;
    ForwardReflexive(w.db);
    assert StartOpsOk(w') && AdvertOpsOk(w') && PublishOpsOk(w');
    assert ExpiredAreDead(w'.db, Current(w')) && SentJournaled(w');
  }

  lemma AdvertDatumFacts(cfg: Config, db: Db, key: AdvertKey)
    requires ServiceOk(cfg, db) && key in db.adverts
    ensures var s := db.adverts[key].signed;
      s.target in cfg.slots && s.datum.AdvertDatum? && s.datum.offer.supplierPkh == cfg.slots[s.target].supplierPkh
  {
    hide RetirementsOk, PublishedConfirmed;
    assert AdvertRowChecked(cfg, db.adverts[key].signed);
  }

  lemma ReadvertSignsKeeps(cfg: Config, db: Db, key: AdvertKey, agent: AgentId, built: C.Built,
                           visible: OutRef -> bool, maxDebit: nat, at: Time)
    requires ConfigOk(cfg) && ServiceOk(cfg, db) && key in db.adverts
    requires var publish := db.adverts[key].signed;
      && publish.target in cfg.slots && publish.datum.AdvertDatum?
      && var slot, expected := cfg.slots[publish.target], ReadvertDatum(publish.datum, agent);
         && Approved(slot, expected, built, visible, maxDebit)
         && S.JournalReadvert(db, C.SignedFrom(key.publication, slot, expected, built.tx, maxDebit, at)).Ok?
    ensures var publish := db.adverts[key].signed;
      var slot, expected := cfg.slots[publish.target], ReadvertDatum(publish.datum, agent);
      var db' := S.JournalReadvert(db, C.SignedFrom(key.publication, slot, expected, built.tx, maxDebit, at)).value;
      && ServiceOk(cfg, db') && Forward(db, db') && Touches(db, db', {})
      && AdvertOpOk(db', SubmittingReadvert(AdvertKey(key.publication, S.NextGeneration(db, key.publication)), built.tx))
  {
    hide ServiceOk, Forward, Touches, S.JournalReadvert, AdvertRowChecked, C.PostsAdvert, AdvertOpOk, S.NextGeneration;
    var target := db.adverts[key].signed.target;
    AdvertDatumFacts(cfg, db, key);
    var expected := ReadvertDatum(db.adverts[key].signed.datum, agent);
    CheckedAdvertIsRow(cfg, key.publication, expected, built, visible, target, maxDebit, at);
    var t := C.SignedFrom(key.publication, cfg.slots[target], expected, built.tx, maxDebit, at);
    JournalReadvertKeeps(cfg, db, t);
    ReadvertOpOk(db, t);
  }

  lemma ReadvertOpOk(db: Db, t: SignedAdvert)
    requires S.JournalReadvert(db, t).Ok?
    ensures AdvertOpOk(S.JournalReadvert(db, t).value, SubmittingReadvert(AdvertKey(t.publication, S.NextGeneration(db, t.publication)), t.tx))
  {
    hide S.NextGeneration;
  }

  lemma RetireSignsKeeps(cfg: Config, db: Db, key: AdvertKey, built: C.Built, visible: OutRef -> bool, maxDebit: nat, at: Time)
    requires ConfigOk(cfg) && ServiceOk(cfg, db) && AdvertOpOk(db, ReadyToRetire(key, maxDebit))
    requires db.adverts[key].signed.target in cfg.slots
    requires RetirementApproved(cfg.slots[db.adverts[key].signed.target], db.adverts[key].signed.advertRef, built, visible, maxDebit)
    requires S.JournalRetirement(db, C.RetirementFrom(key, db.adverts[key].signed.advertRef, built.tx, maxDebit, at)).Ok?
    ensures var db' := S.JournalRetirement(db, C.RetirementFrom(key, db.adverts[key].signed.advertRef, built.tx, maxDebit, at)).value;
      ServiceOk(cfg, db') && Forward(db, db') && Touches(db, db', {}) && AdvertOpOk(db', SubmittingRetirement(key, built.tx))
  {
    hide ServiceOk, Forward, Touches, RetirementChecked, C.RetiresAdvert, C.RetireDebit, C.Others, C.Listed;
    var advert := db.adverts[key].signed;
    CheckedRetirementIsRow(cfg, key, advert, built, visible, maxDebit, at);
    RetirementAddedKeeps(cfg, db, C.RetirementFrom(key, advert.advertRef, built.tx, maxDebit, at));
  }

  lemma ResolveReadvertExpiresDead(cfg: Config, w: World, key: AdvertKey, i: nat, at: Time)
    requires Inv(cfg, w) && w.history != [] && i < |w.history|
    ensures ExpiresOnlyDead(w.db, ResolveReadvert(w.db, key, w.history[i], at), Current(w))
  {
    hide Dead, Examine, Inv;
    ConfirmExpiresNone(w.db, key, at, Current(w));
    if key in w.db.adverts && Examine(w.history[i], w.db.adverts[key].signed).CannotConfirm? {
      ExpireExpiresDead(cfg, w, key, i, at);
    }
  }

  /** A read begins: the tables are untouched and the operation may rely on what it has checked. */
  lemma ReadBeginsKeeps(cfg: Config, w: World, target: TargetId, op: AdvertOp, w': World)
    requires Inv(cfg, w) && AdvertOpOk(w.db, op) && w' == w.(advertOps := w.advertOps[target := op])
    ensures Inv(cfg, w') && Forward(w.db, w'.db) && Touches(w.db, w'.db, {})
  {
    hide ServiceOk, ChainRun, Dead, AdvertOpOk;
    ForwardReflexive(w.db);
    assert StartOpsOk(w') && AdvertOpsOk(w') && PublishOpsOk(w');
    assert ExpiredAreDead(w'.db, Current(w')) && SentJournaled(w');
  }

  lemma RetirementIsLegacy(cfg: Config, db: Db, key: AdvertKey)
    requires ServiceOk(cfg, db) && HasRetirement(db, key)
    ensures key in db.adverts && db.adverts[key].signed.layout == Legacy
    ensures IsPublished(db, key.publication) && HasSwitched(db.adverts, key.publication)
  {
    hide S.JournalOk, AdvertsChecked, PublishedConfirmed, RetirementChecked;
    var t :| t in db.retirements && db.retirements[t].signed.key == key;
    assert RetirementOk(cfg, db, db.retirements[t]);
  }

  lemma ReadStepKeeps(cfg: Config, w: World, target: TargetId, m: AdvertMove, at: Time, w': World)
    requires Inv(cfg, w) && AdvertStep(cfg, w, target, m, at, w')
    requires m.ReadvertBegins? || m.ReadvertReads? || m.SwitchReads? || m.SettleReads?
    ensures Inv(cfg, w') && Forward(w.db, w'.db) && Touches(w.db, w'.db, {})
  {
    hide ServiceOk, ConfigOk, Forward, Touches, ExpiredAreDead, StartOpsOk, PublishOpsOk, SentJournaled, ChainRun, Included, Unspent, HasRetirement,
         HasSwitched, S.LiveIdentityAdvert;
    match m
    case ReadvertBegins(id, agent, maxDebit) => ReadBeginsKeeps(cfg, w, target, Readverting(AdvertKey(id, 1), agent, maxDebit), w');
    case ReadvertReads(key) => ReadBeginsKeeps(cfg, w, target, ReadingReadvert(key, Last(w)), w');
    case SwitchReads(key) => ReadBeginsKeeps(cfg, w, target, Switching(key, Last(w)), w');
    case SettleReads(key) =>
      if HasRetirement(w.db, key) { RetirementIsLegacy(cfg, w.db, key); }
      ReadBeginsKeeps(cfg, w, target, Settling(key, Last(w)), w');
  }

  lemma RetireReadStepKeeps(cfg: Config, w: World, target: TargetId, m: AdvertMove, at: Time, w': World)
    requires Inv(cfg, w) && AdvertStep(cfg, w, target, m, at, w') && (m.RetireAdmits? || m.RetireResends?)
    ensures Inv(cfg, w') && Forward(w.db, w'.db) && Touches(w.db, w'.db, {})
  {
    hide ServiceOk, ConfigOk, Forward, Touches, ExpiredAreDead, StartOpsOk, PublishOpsOk, SentJournaled, ChainRun, Included, Unspent, HasRetirement;
    match m
    case RetireAdmits(key, i, maxDebit) =>
      assert AdvertKey(key.publication, key.generation) == key;
      ReadBeginsKeeps(cfg, w, target, ReadyToRetire(w.advertOps[target].key, maxDebit), w');
    case RetireResends(tx) =>
      assert AdvertOpOk(w.db, w.advertOps[target]);
      RetirementTxIsKey(cfg, w.db, tx);
      ReadBeginsKeeps(cfg, w, target, SubmittingRetirement(w.advertOps[target].key, tx), w');
  }

  lemma RetirementTxIsKey(cfg: Config, db: Db, tx: Tx)
    requires ServiceOk(cfg, db) && tx in db.retirements
    ensures db.retirements[tx].signed.tx == tx
  {
    hide AdvertsChecked, RetirementsOk, PublishedConfirmed, LaterArePublished;
  }

  /** The transaction that an adverts operation holds is a journaled one, so submitting it keeps what was sent journaled. */
  lemma AdvertSubmitsKeeps(cfg: Config, w: World, target: TargetId, op: AdvertOp, w': World)
    requires Inv(cfg, w) && target in w.advertOps && (w.advertOps[target].SubmittingReadvert? || w.advertOps[target].SubmittingRetirement?)
    requires op == if w.advertOps[target].SubmittingReadvert? then AwaitingReadvert(w.advertOps[target].key, w.advertOps[target].tx)
                   else AwaitingRetirement(w.advertOps[target].key, w.advertOps[target].tx)
    requires w' == w.(sent := w.sent + {w.advertOps[target].tx}, advertOps := w.advertOps[target := op])
    ensures Inv(cfg, w') && Forward(w.db, w'.db) && Touches(w.db, w'.db, {})
  {
    hide ServiceOk, ChainRun, Dead;
    ForwardReflexive(w.db);
    assert AdvertOpOk(w.db, w.advertOps[target]);
    assert IsJournaled(w.db, w.advertOps[target].tx);
    assert StartOpsOk(w') && AdvertOpsOk(w') && PublishOpsOk(w');
    assert ExpiredAreDead(w'.db, Current(w')) && SentJournaled(w');
  }

  lemma ReadvertStepKeeps(cfg: Config, w: World, target: TargetId, m: AdvertMove, at: Time, w': World)
    requires ConfigOk(cfg) && Inv(cfg, w) && AdvertStep(cfg, w, target, m, at, w')
    requires m.ReadvertSigns? || m.ReadvertSubmits? || m.ReadvertConfirms? || m.ReadvertResolves? || m.SwitchEnds?
    ensures Inv(cfg, w') && Forward(w.db, w'.db) && Touches(w.db, w'.db, AdvertTouches(w, target, m))
  {
    hide ServiceOk, ConfigOk, Forward, Touches, ExpiresOnlyDead, ExpiredAreDead, StartOpsOk, PublishOpsOk, SentJournaled, ChainRun,
         ResolveReadvert, Settle, S.JournalReadvert, S.ConfirmAdvert, S.SwitchAdvert, S.RetireAdvert, S.JournalRetirement,
         Approved, RetirementApproved, Included, Unspent, HasRetirement, IsPublished, HasSwitched, SwitchedTo, S.LiveIdentityAdvert;
    var db, c := w.db, Current(w);
    match m
    case ReadvertSigns(built, visible) =>
      ReadvertSignsKeeps(cfg, db, w.advertOps[target].key, w.advertOps[target].agent, built, visible, w.advertOps[target].maxDebit, at);
      UntouchedExpiresNone(db, w'.db, c);
      TablesChangeKeeps(cfg, w, w');
    case ReadvertSubmits => AdvertSubmitsKeeps(cfg, w, target, AwaitingReadvert(w.advertOps[target].key, w.advertOps[target].tx), w');
    case ReadvertConfirms(i) =>
      ConfirmKeeps(cfg, db, w.advertOps[target].key, at);
      ConfirmExpiresNone(db, w.advertOps[target].key, at, c);
      TablesChangeKeeps(cfg, w, w');
    case ReadvertResolves(i) =>
      ResolveReadvertKeeps(cfg, db, w.advertOps[target].key, w.history[i], at);
      ResolveReadvertExpiresDead(cfg, w, w.advertOps[target].key, i, at);
      TablesChangeKeeps(cfg, w, w');
    case SwitchEnds(i) =>
      SwitchEndsKeeps(cfg, db, w.advertOps[target].key, at);
      SwitchExpiresNone(db, w.advertOps[target].key, at, c);
      TablesChangeKeeps(cfg, w, w');
  }

  lemma RetireStepKeeps(cfg: Config, w: World, target: TargetId, m: AdvertMove, at: Time, w': World)
    requires ConfigOk(cfg) && Inv(cfg, w) && AdvertStep(cfg, w, target, m, at, w')
    requires m.RetireSigns? || m.RetireSubmits? || m.AdvertOpEnds?
    ensures Inv(cfg, w') && Forward(w.db, w'.db) && Touches(w.db, w'.db, AdvertTouches(w, target, m))
  {
    hide ServiceOk, ConfigOk, Forward, Touches, ExpiresOnlyDead, ExpiredAreDead, StartOpsOk, PublishOpsOk, SentJournaled, ChainRun,
         ResolveReadvert, Settle, S.JournalReadvert, S.ConfirmAdvert, S.SwitchAdvert, S.RetireAdvert, S.JournalRetirement,
         Approved, RetirementApproved, Included, Unspent, HasRetirement, IsPublished, HasSwitched, SwitchedTo, S.LiveIdentityAdvert;
    var db, c := w.db, Current(w);
    match m
    case RetireSigns(built, visible) =>
      RetireSignsKeeps(cfg, db, w.advertOps[target].key, built, visible, w.advertOps[target].maxDebit, at);
      UntouchedExpiresNone(db, w'.db, c);
      TablesChangeKeeps(cfg, w, w');
    case RetireSubmits => AdvertSubmitsKeeps(cfg, w, target, AwaitingRetirement(w.advertOps[target].key, w.advertOps[target].tx), w');
    case AdvertOpEnds =>
      ForwardReflexive(db);
      SameTablesExpireNone(db, c);
      TablesChangeKeeps(cfg, w, w');
  }

  lemma SettleEndsStepKeeps(cfg: Config, w: World, target: TargetId, i: nat, retiredBy: Option<Tx>, at: Time, w': World)
    requires Inv(cfg, w) && AdvertStep(cfg, w, target, SettleEnds(i, retiredBy), at, w')
    ensures Inv(cfg, w') && Forward(w.db, w'.db) && Touches(w.db, w'.db, AdvertTouches(w, target, SettleEnds(i, retiredBy)))
  {
    hide ServiceOk, ConfigOk, Forward, Touches, ExpiresOnlyDead, ExpiredAreDead, StartOpsOk, PublishOpsOk, SentJournaled, ChainRun,
         Settle, Unspent, IsPublished, HasSwitched;
    var key := w.advertOps[target].key;
    assert AdvertOpOk(w.db, w.advertOps[target]);
    SettleEndsKeeps(cfg, w.db, key, w.history[i], retiredBy, at, Current(w));
    SettledStaysOk(w.db, w'.db, key, i);
    TablesChangeKeeps(cfg, w, w');
  }

  lemma RetireConfirmsKeeps(cfg: Config, w: World, target: TargetId, i: nat, at: Time, w': World)
    requires Inv(cfg, w) && AdvertStep(cfg, w, target, RetireConfirms(i), at, w')
    ensures Inv(cfg, w') && Forward(w.db, w'.db) && Touches(w.db, w'.db, AdvertTouches(w, target, RetireConfirms(i)))
  {
    hide ServiceOk, ConfigOk, Forward, Touches, ExpiresOnlyDead, ExpiredAreDead, StartOpsOk, PublishOpsOk, SentJournaled, ChainRun,
         S.RetireAdvert, Included, HasRetirement, IsPublished, HasSwitched;
    var db, c := w.db, Current(w);
    var key, tx := w.advertOps[target].key, w.advertOps[target].tx;
    assert AdvertOpOk(db, w.advertOps[target]);
    assert HasRetirement(db, key) by { RetirementNamesKey(db, tx); }
    RetirementIsLegacy(cfg, db, key);
    RetireKeeps(cfg, db, key, Some(tx), at);
    RetireExpiresNone(db, key, Some(tx), at, c);
    TablesChangeKeeps(cfg, w, w');
  }

  lemma AdvertStepKeeps(cfg: Config, w: World, target: TargetId, m: AdvertMove, at: Time, w': World)
    requires ConfigOk(cfg) && Inv(cfg, w) && AdvertStep(cfg, w, target, m, at, w')
    ensures Inv(cfg, w') && Forward(w.db, w'.db) && Touches(w.db, w'.db, AdvertTouches(w, target, m))
  {
    hide ServiceOk, ConfigOk, Forward, Touches, ExpiredAreDead, OpsOk, SentJournaled, ChainRun, AdvertStep;
    if m.ReadvertBegins? || m.ReadvertReads? || m.SwitchReads? || m.SettleReads? {
      ReadStepKeeps(cfg, w, target, m, at, w');
    } else if m.RetireAdmits? || m.RetireResends? {
      RetireReadStepKeeps(cfg, w, target, m, at, w');
    } else if m.RetireConfirms? {
      RetireConfirmsKeeps(cfg, w, target, m.i, at, w');
    } else if m.SettleEnds? {
      SettleEndsStepKeeps(cfg, w, target, m.i, m.retiredBy, at, w');
    } else if m.RetireSigns? || m.RetireSubmits? || m.AdvertOpEnds? {
      RetireStepKeeps(cfg, w, target, m, at, w');
    } else {
      ReadvertStepKeeps(cfg, w, target, m, at, w');
    }
  }

  lemma RetirementNamesKey(db: Db, tx: Tx)
    requires tx in db.retirements
    ensures HasRetirement(db, db.retirements[tx].signed.key)
  {
  }

  lemma SameTablesExpireNone(db: Db, c: ChainState)
    ensures ExpiresOnlyDead(db, db, c)
  {
  }

  lemma SwitchEndsKeeps(cfg: Config, db: Db, key: AdvertKey, at: Time)
    requires ServiceOk(cfg, db) && key in db.adverts && db.adverts[key].signed.layout == Identity
    ensures var db' := OrSame(db, S.SwitchAdvert(db, key, at));
      ServiceOk(cfg, db') && Forward(db, db') && Touches(db, db', {key})
  {
    hide ServiceOk, Forward, Touches;
    ForwardReflexive(db);
    if S.SwitchAdvert(db, key, at).Ok? {
      SwitchKeeps(cfg, db, key, at);
    }
  }

  lemma SettleEndsKeeps(cfg: Config, db: Db, key: AdvertKey, seen: ChainState, retiredBy: Option<Tx>, at: Time, c: ChainState)
    requires ServiceOk(cfg, db) && key in db.adverts && db.adverts[key].signed.layout == Legacy
    ensures var db' := Settle(db, key, seen, retiredBy, at);
      ServiceOk(cfg, db') && Forward(db, db') && Touches(db, db', {key}) && ExpiresOnlyDead(db, db', c)
  {
    hide ServiceOk, Forward, Touches, S.RetireAdvert, ExpiresOnlyDead, Unspent;
    SettleKeeps(cfg, db, key, seen, retiredBy, at);
    SameTablesExpireNone(db, c);
    RetireExpiresNone(db, key, retiredBy, at, c);
  }

  lemma SettledStaysOk(db: Db, db': Db, key: AdvertKey, i: nat)
    requires key in db.adverts && db.adverts[key].signed.layout == Legacy && Forward(db, db')
    ensures AdvertOpOk(db', Settled(key, i))
  {
    KeptRowsStay(db, db');
  }

  lemma ServingIsOwn(cfg: Config, db: Db, id: PublicationId)
    requires ServiceOk(cfg, db) && S.ServingAdvert(S.Adverts(db, id)).Some?
    ensures var key := KeyOf(S.ServingAdvert(S.Adverts(db, id)).value);
      && key in db.adverts && key.publication == id && db.adverts[key] == S.ServingAdvert(S.Adverts(db, id)).value
  {
    hide AdvertsChecked, RetirementsOk, PublishedConfirmed, LaterArePublished;
    S.ServingIsStored(db, id);
  }

  lemma StartStepKeeps(cfg: Config, w: World, target: TargetId, m: StartMove, at: Time, w': World)
    requires Inv(cfg, w) && StartStep(w, target, m, at, w')
    ensures Inv(cfg, w') && Forward(w.db, w'.db) && Touches(w.db, w'.db, StartTouches(w, target, m))
  {
    hide ServiceOk, Forward, Touches, ExpiresOnlyDead, ExpiredAreDead, AdvertOpsOk, PublishOpsOk, SentJournaled, ChainRun,
         S.ConfirmAdvert, FinishStart, Unspent, S.ServingAdvert, S.Adverts;
    var db, c := w.db, Current(w);
    ForwardReflexive(db);
    SameTablesExpireNone(db, c);
    match m
    case StartBegins(id) =>
      StartBeginsOk(cfg, db, id, Last(w));
      TablesChangeKeeps(cfg, w, w');
    case StartConfirms(i) =>
      var op := w.startOps[target];
      ConfirmKeeps(cfg, db, op.key, at);
      ConfirmExpiresNone(db, op.key, at, c);
      StartedOk(db, op, at);
      TablesChangeKeeps(cfg, w, w');
    case StartEnds =>
      StartEndsKeeps(cfg, db, w.startOps[target], at);
      UntouchedExpiresNone(db, w'.db, c);
      TablesChangeKeeps(cfg, w, w');
    case StartFails => TablesChangeKeeps(cfg, w, w');
    case ChildStops => TablesChangeKeeps(cfg, w, w');
  }

  lemma StartBeginsOk(cfg: Config, db: Db, id: PublicationId, from: nat)
    requires ServiceOk(cfg, db) && id in db.publications && S.ServingAdvert(S.Adverts(db, id)).Some?
    ensures StartOpOk(db, Starting(id, KeyOf(S.ServingAdvert(S.Adverts(db, id)).value), from))
  {
    hide S.JournalOk, AdvertsChecked, RetirementsOk, PublishedConfirmed, S.ServingAdvert, S.Adverts;
    ServingIsOwn(cfg, db, id);
    AdvertRowFacts(cfg, db, KeyOf(S.ServingAdvert(S.Adverts(db, id)).value));
  }

  lemma StartedOk(db: Db, op: StartOp, at: Time)
    requires StartOpOk(db, op)
    ensures StartOpOk(S.ConfirmAdvert(db, op.key, at), Started(op.id, op.key))
  {
  }

  lemma StartEndsKeeps(cfg: Config, db: Db, op: StartOp, at: Time)
    requires ServiceOk(cfg, db) && StartOpOk(db, op) && op.Started?
    ensures var db' := FinishStart(db, op.id, at); ServiceOk(cfg, db') && Forward(db, db') && Touches(db, db', {})
  {
    hide S.JournalOk, AdvertsChecked, RetirementsOk, LaterArePublished, Forward, Touches, FinishStart;
    FinishStartKeeps(cfg, db, op.id, at);
  }

  lemma CrashKeeps(cfg: Config, w: World, at: Time)
    requires Inv(cfg, w)
    ensures Inv(cfg, Crashed(w, at)) && Forward(w.db, Crashed(w, at).db) && Touches(w.db, Crashed(w, at).db, {})
  {
    hide ServiceOk, Forward, Touches, ExpiresOnlyDead, ExpiredAreDead, ChainRun, S.Recover;
    RecoverKeeps(cfg, w.db, at);
    UntouchedExpiresNone(w.db, S.Recover(w.db, at), Current(w));
    TablesChangeKeeps(cfg, w, Crashed(w, at));
  }

  lemma RunExtends(run: seq<ChainState>, move: ChainMove, next: ChainState)
    requires ChainRun(run) && ChainStep(run[|run| - 1], move, next)
    ensures ChainRun(run + [next])
  {
    hide ChainStep, ValidChain;
    var longer := run + [next];
    forall i, j | 0 <= i && j == i + 1 && j < |longer| ensures Follows(longer[i], longer[j]) {
      if j < |run| {
        assert Follows(run[i], run[j]);
      } else {
        assert longer[i] == run[|run| - 1] && longer[j] == next;
      }
    }
  }

  lemma ChainMoveKeeps(cfg: Config, w: World, move: ChainMove, next: ChainState)
    requires Inv(cfg, w) && ChainStep(Current(w), move, next)
    ensures Inv(cfg, w.(history := w.history + [next]))
  {
    hide ServiceOk, ChainRun, ChainStep, Dead;
    RunExtends(w.history, move, next);
    RunStaysValid(w.history, Last(w));
    var w' := w.(history := w.history + [next]);
    assert Current(w') == next;
    forall k | IsExpired(w.db.adverts, k) ensures Dead(next, w.db.adverts[k].signed.tx) {
      DeadStaysDead(Current(w), move, next, w.db.adverts[k].signed.tx);
    }
    assert PublishOpsOk(w') && AdvertOpsOk(w') && StartOpsOk(w') && SentJournaled(w');
  }

  lemma NextKeeps(cfg: Config, w: World, step: Step, w': World)
    requires ConfigOk(cfg) && Inv(cfg, w) && Next(cfg, w, step, w')
    ensures Inv(cfg, w') && Forward(w.db, w'.db) && Touches(w.db, w'.db, StepTouches(w, step))
  {
    hide PublishStep, AdvertStep, StartStep, ServiceOk, Forward, Touches, ChainStep, ChainRun, ConfigOk, PublishTouches, AdvertTouches, StartTouches;
    match step
    case Publish(id, p, at) => PublishStepKeeps(cfg, w, id, p, at, w');
    case Adverts(target, a, at) => AdvertStepKeeps(cfg, w, target, a, at, w');
    case Start(target, s, at) => StartStepKeeps(cfg, w, target, s, at, w');
    case ChainMoves(move, next) =>
      ForwardReflexive(w.db);
      ChainMoveKeeps(cfg, w, move, next);
    case Crashes(at) => CrashKeeps(cfg, w, at);
  }

  // ----- Whole runs -----

  ghost predicate Steps(cfg: Config, w: World, w': World)
  {
    w.history != [] && S.JournalOk(w.db) && exists step :: Next(cfg, w, step, w')
  }

  /**
   A process starts over a journal that satisfies the service invariant, with rows
   as the service writes them, and whose expired adverts are dead on the adopted
   chain; nothing is under way. Empty tables are one such journal, migrated tables
   can be another.
   */
  ghost predicate Boots(cfg: Config, w: World) {
    && |w.history| == 1 && ValidChain(w.history[0]) && ServiceOk(cfg, w.db) && RowsOk(cfg, w.db) && ExpiredAreDead(w.db, w.history[0])
    && w.sent == {} && w.publishOps == map[] && w.advertOps == map[] && w.startOps == map[] && w.children == map[]
  }

  ghost predicate Run(cfg: Config, ws: seq<World>) {
    && ws != [] && Boots(cfg, ws[0])
    && forall i, j :: 0 <= i && j == i + 1 && j < |ws| ==> Steps(cfg, ws[i], ws[j])
  }

  lemma BootsOk(cfg: Config, w: World)
    requires Boots(cfg, w)
    ensures Inv(cfg, w) && w.sent == {}
  {
    hide ServiceOk, Dead, ValidChain;
  }

  lemma InitialBoots(cfg: Config, w: World)
    requires Initial(w)
    ensures Boots(cfg, w)
  {
    S.EmptyJournalOk();
  }

  lemma {:induction false} RunKeeps(cfg: Config, ws: seq<World>, i: nat)
    requires ConfigOk(cfg) && Run(cfg, ws) && i < |ws|
    ensures Inv(cfg, ws[i])
  {
    hide Inv, Boots, ConfigOk, Next, Forward, Touches, StepTouches;
    if i == 0 {
      BootsOk(cfg, ws[0]);
    } else {
      RunKeeps(cfg, ws, i - 1);
      assert Steps(cfg, ws[i - 1], ws[i]);
      InvMeansStored(cfg, ws[i - 1]);
      var step :| Next(cfg, ws[i - 1], step, ws[i]);
      NextKeeps(cfg, ws[i - 1], step, ws[i]);
    }
  }

  lemma InvMeansStored(cfg: Config, w: World)
    requires Inv(cfg, w)
    ensures w.history != [] && S.JournalOk(w.db)
  {
  }

  lemma {:induction false} RunIsForward(cfg: Config, ws: seq<World>, i: nat, j: nat)
    requires ConfigOk(cfg) && Run(cfg, ws) && i <= j < |ws|
    ensures Forward(ws[i].db, ws[j].db)
    decreases j
  {
    hide Inv, Boots, ConfigOk, Next, Forward, Touches, StepTouches;
    if i == j {
      ForwardReflexive(ws[i].db);
    } else {
      RunIsForward(cfg, ws, i, j - 1);
      RunKeeps(cfg, ws, j - 1);
      InvMeansStored(cfg, ws[j - 1]);
      assert Steps(cfg, ws[j - 1], ws[j]);
      var step :| Next(cfg, ws[j - 1], step, ws[j]);
      NextKeeps(cfg, ws[j - 1], step, ws[j]);
      ForwardTransitive(ws[i].db, ws[j - 1].db, ws[j].db);
    }
  }

  // ----- Never twice on chain -----

  /** Two adverts of one slot in one layout cannot both be on a chain the journal stands against. */
  lemma OnePerLayout(cfg: Config, w: World, j: AdvertKey, k: AdvertKey)
    requires Inv(cfg, w) && j in w.db.adverts && k in w.db.adverts
    requires w.db.adverts[j].signed.target == w.db.adverts[k].signed.target
    requires w.db.adverts[j].signed.layout == w.db.adverts[k].signed.layout
    requires Included(Current(w), w.db.adverts[j].signed.tx) && Included(Current(w), w.db.adverts[k].signed.tx)
    ensures j == k
  {
    hide ServiceOk, ChainRun, OpsOk, SentJournaled, Included, ExpiredAreDead;
    SameSlotSamePublication(cfg, w.db, j, k);
    if w.db.adverts[j].signed.layout == Identity {
      IdentityOnChainIsLive(cfg, w, j);
      IdentityOnChainIsLive(cfg, w, k);
      LiveOnePerLayout(cfg, w.db, j, k);
    } else {
      AdvertRowFacts(cfg, w.db, j);
      AdvertRowFacts(cfg, w.db, k);
    }
  }

  lemma IdentityOnChainIsLive(cfg: Config, w: World, k: AdvertKey)
    requires Inv(cfg, w) && k in w.db.adverts && w.db.adverts[k].signed.layout == Identity
    requires Included(Current(w), w.db.adverts[k].signed.tx)
    ensures Live(w.db.adverts[k])
  {
    hide ServiceOk, ChainRun, OpsOk, SentJournaled, Included, ExpiredAreDead, AdvertRowChecked;
    NotExpiredWhenIncluded(cfg, w, k);
    AdvertRowFacts(cfg, w.db, k);
    match w.db.adverts[k].endReason {
      case None =>
      case Some(reason) => match reason { case Expired => case Retired => }
    }
  }

  lemma LiveOnePerLayout(cfg: Config, db: Db, j: AdvertKey, k: AdvertKey)
    requires ServiceOk(cfg, db) && j in db.adverts && k in db.adverts && Live(db.adverts[j]) && Live(db.adverts[k])
    requires db.adverts[j].signed.target == db.adverts[k].signed.target
    requires db.adverts[j].signed.layout == db.adverts[k].signed.layout
    ensures j == k
  {
    hide AdvertsChecked, RetirementsOk, PublishedConfirmed, LaterArePublished;
  }

  lemma NotExpiredWhenIncluded(cfg: Config, w: World, k: AdvertKey)
    requires Inv(cfg, w) && k in w.db.adverts && Included(Current(w), w.db.adverts[k].signed.tx)
    ensures w.db.adverts[k].endReason != Some(Expired)
  {
    hide ServiceOk, ChainRun, OpsOk, SentJournaled, Included;
    assert IsExpired(w.db.adverts, k) ==> Dead(Current(w), w.db.adverts[k].signed.tx);
  }

  lemma SameSlotSamePublication(cfg: Config, db: Db, j: AdvertKey, k: AdvertKey)
    requires ServiceOk(cfg, db) && j in db.adverts && k in db.adverts
    requires db.adverts[j].signed.target == db.adverts[k].signed.target
    ensures j.publication == k.publication
  {
    hide AdvertsChecked, RetirementsOk, PublishedConfirmed, LaterArePublished;
    S.AdvertMeansSigned(db, j);
    S.AdvertMeansSigned(db, k);
    assert HoldsSlot(db.publications[j.publication]) && HoldsSlot(db.publications[k.publication]);
  }

  /**
   In every run, over all crashes, expired attempts and rollbacks, a slot has at
   most one legacy-layout and at most one identity-layout advert on the chain.
   */
  lemma NeverTwiceOnChain(cfg: Config, ws: seq<World>, i: nat, j: AdvertKey, k: AdvertKey)
    requires ConfigOk(cfg) && Run(cfg, ws) && i < |ws|
    requires j in ws[i].db.adverts && k in ws[i].db.adverts && ws[i].history != []
    requires ws[i].db.adverts[j].signed.target == ws[i].db.adverts[k].signed.target
    requires ws[i].db.adverts[j].signed.layout == ws[i].db.adverts[k].signed.layout
    requires Included(Current(ws[i]), ws[i].db.adverts[j].signed.tx)
    requires Included(Current(ws[i]), ws[i].db.adverts[k].signed.tx)
    ensures j == k
  {
    hide Inv, Run, Included;
    RunKeeps(cfg, ws, i);
    OnePerLayout(cfg, ws[i], j, k);
  }

  /** A journaled advert is never rewritten: generation 1 of a publication is signed at most once. */
  lemma SignedOnce(cfg: Config, ws: seq<World>, i: nat, j: nat, key: AdvertKey)
    requires ConfigOk(cfg) && Run(cfg, ws) && i <= j < |ws| && key in ws[i].db.adverts
    ensures key in ws[j].db.adverts && ws[j].db.adverts[key].signed == ws[i].db.adverts[key].signed
  {
    hide Run, ConfigOk;
    RunIsForward(cfg, ws, i, j);
    KeptRowsStay(ws[i].db, ws[j].db);
  }

  /** A publish submits only the transaction it holds, and that is the journaled publish advert. */
  lemma PublishSubmitsJournaled(cfg: Config, w: World, id: PublicationId, m: PublishMove, at: Time, w': World, tx: Tx)
    requires PublishOpsOk(w) && w.history != [] && PublishStep(cfg, w, id, m, at, w') && tx in w'.sent && tx !in w.sent
    ensures IsJournaled(w.db, tx)
  {
    hide S.Retry, S.Create, S.Update, S.Journal, S.ConfirmAdvert, RecordEvidence, RecordPhase, Approved, Included;
    assert m.PublishSubmits? && PublishOpOk(w.db, id, w.publishOps[id]);
  }

  /** Re-advertising and retiring submit only the transaction they hold, and that is a journaled one. */
  lemma AdvertSubmitsJournaled(cfg: Config, w: World, target: TargetId, m: AdvertMove, at: Time, w': World, tx: Tx)
    requires AdvertOpsOk(w) && w.history != [] && S.JournalOk(w.db) && AdvertStep(cfg, w, target, m, at, w')
    requires tx in w'.sent && tx !in w.sent
    ensures IsJournaled(w.db, tx)
  {
    hide S.JournalOk, S.JournalReadvert, S.ConfirmAdvert, S.RetireAdvert, S.SwitchAdvert, S.JournalRetirement, ResolveReadvert, Settle, Approved,
         RetirementApproved, Included, Unspent, HasRetirement, IsPublished, HasSwitched, SwitchedTo, S.LiveIdentityAdvert, S.NextGeneration;
    assert m.ReadvertSubmits? || m.RetireSubmits?;
    assert AdvertOpOk(w.db, w.advertOps[target]);
  }

  lemma StartSubmitsNothing(w: World, target: TargetId, m: StartMove, at: Time, w': World)
    requires w.history != [] && S.JournalOk(w.db) && StartStep(w, target, m, at, w')
    ensures w'.sent == w.sent
  {
    hide S.JournalOk, S.ConfirmAdvert, FinishStart, Unspent, S.ServingAdvert, S.Adverts;
  }

  lemma SubmitsOnlyJournaled(cfg: Config, w: World, step: Step, w': World, tx: Tx)
    requires Inv(cfg, w) && Next(cfg, w, step, w') && tx in w'.sent && tx !in w.sent
    ensures IsJournaled(w.db, tx)
  {
    hide ServiceOk, ChainRun, ExpiredAreDead, SentJournaled, PublishStep, AdvertStep, StartStep, PublishOpOk, AdvertOpOk, StartOpsOk, S.Recover, ChainStep;
    InvMeansStored(cfg, w);
    match step
    case Publish(id, p, at) => PublishSubmitsJournaled(cfg, w, id, p, at, w', tx);
    case Adverts(target, a, at) => AdvertSubmitsJournaled(cfg, w, target, a, at, w', tx);
    case Start(target, s, at) => StartSubmitsNothing(w, target, s, at, w');
    case _ =>
  }

  /** Journaled in state `j` of a run and in every later one. */
  ghost predicate JournaledFrom(ws: seq<World>, j: nat, tx: Tx) {
    forall k :: j <= k < |ws| ==> IsJournaled(ws[k].db, tx)
  }

  /**
   Whatever was submitted to the network was in the journal in an earlier state,
   in which it had not been submitted yet, and it never leaves the journal. So no
   crash loses the record of a transaction that can enter a block.
   */
  lemma {:induction false} BroadcastWasJournaledEarlier(cfg: Config, ws: seq<World>, i: nat, tx: Tx)
    requires ConfigOk(cfg) && Run(cfg, ws) && i < |ws| && tx in ws[i].sent
    ensures exists j :: 0 <= j < i && tx !in ws[j].sent && JournaledFrom(ws, j, tx)
  {
    hide Inv, ConfigOk, Next, Boots, Forward, Touches, StepTouches, IsJournaled;
    if i == 0 {
      BootsOk(cfg, ws[0]);
    } else if tx in ws[i - 1].sent {
      BroadcastWasJournaledEarlier(cfg, ws, i - 1, tx);
    } else {
      RunKeeps(cfg, ws, i - 1);
      InvMeansStored(cfg, ws[i - 1]);
      assert Steps(cfg, ws[i - 1], ws[i]);
      var step :| Next(cfg, ws[i - 1], step, ws[i]);
      SubmitsOnlyJournaled(cfg, ws[i - 1], step, ws[i], tx);
      forall k | i - 1 <= k < |ws| ensures IsJournaled(ws[k].db, tx) {
        RunIsForward(cfg, ws, i - 1, k);
        ForwardKeepsJournaled(ws[i - 1].db, ws[k].db, tx);
      }
      assert JournaledFrom(ws, i - 1, tx);
    }
  }

  lemma ForwardKeepsJournaled(db: Db, db': Db, tx: Tx)
    requires Forward(db, db') && IsJournaled(db, tx)
    ensures IsJournaled(db', tx)
  {
    hide IsJournaled;
    KeptRowsStay(db, db');
  }

  /** An advert that ended as expired is on no chain that the node adopts from then on. */
  lemma ExpiredStaysOffChain(cfg: Config, ws: seq<World>, i: nat, j: nat, key: AdvertKey)
    requires ConfigOk(cfg) && Run(cfg, ws) && i <= j < |ws| && IsExpired(ws[i].db.adverts, key)
    ensures key in ws[j].db.adverts && ws[j].history != []
    ensures ws[j].db.adverts[key].endReason == Some(Expired) && !Included(Current(ws[j]), ws[j].db.adverts[key].signed.tx)
  {
    hide Run, ConfigOk, ServiceOk, OpsOk, SentJournaled, Included;
    RunKeeps(cfg, ws, i);
    RunKeeps(cfg, ws, j);
    RunIsForward(cfg, ws, i, j);
    EndedStays(cfg, ws[i].db, ws[j].db, key);
    assert IsExpired(ws[j].db.adverts, key);
  }

  lemma EndedStays(cfg: Config, db: Db, db': Db, key: AdvertKey)
    requires ServiceOk(cfg, db) && Forward(db, db') && key in db.adverts && db.adverts[key].endReason.Some?
    ensures key in db'.adverts && db'.adverts[key].endReason == db.adverts[key].endReason
  {
    AdvertRowFacts(cfg, db, key);
    assert AdvertsKept(db.adverts, db'.adverts);
  }
}

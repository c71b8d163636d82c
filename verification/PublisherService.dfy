/**
 What the publisher service adds to the store: which adverts and retirements it
 signs, and how it turns chain evidence into changes of the journal. The rules
 here keep a service invariant on the stored rows.
 */
module PublisherService {
  import opened Prelude
  import opened Ledger
  import opened PublisherTables
  import C = AdvertCheck
  import S = PublisherStore

  datatype Config = Config(slots: map<TargetId, C.Slot>)

  /** Slot wallets are not script addresses, and each slot has its own entry. */
  ghost predicate ConfigOk(cfg: Config) {
    forall t, u :: t in cfg.slots && u in cfg.slots ==>
      && cfg.slots[t].target == t
      && cfg.slots[t].wallet != cfg.slots[u].legacyAdverts && cfg.slots[t].wallet != cfg.slots[u].identityAdverts
  }

  const CAPABILITY: Text := 0
  const DELIVERY_OVERHEAD_MS: nat := 150_000
  const NO_URI: Text := 0

  /** The approved terms, as the offer that must be posted for them. */
  function PublishOffer(slot: C.Slot, p: Publication): Offer {
    Offer(slot.supplierPkh, CAPABILITY, p.artifact.model, 0, p.artifact.maxRuntimeMs + DELIVERY_OVERHEAD_MS,
          p.terms.price, p.terms.supplierBond, p.terms.buyerBond, slot.endpointUrl, NO_URI, p.artifact.manifestHash, true)
  }

  // ----- The service invariant on stored rows -----

  predicate IsAdvertAddress(slot: C.Slot, a: Address) {
    a == slot.legacyAdverts || a == slot.identityAdverts
  }

  /** A journaled advert is exactly what the check accepted for its slot. */
  ghost predicate AdvertRowChecked(cfg: Config, s: SignedAdvert) {
    && s.target in cfg.slots
    && var slot := cfg.slots[s.target];
       && s.tx.outputs != [] && s.advertRef == OutRef(s.tx, 0) && s.validUntil == s.tx.validUntil
       && s.walletInputs == C.Listed(s.tx.inputs)
       && s.tx.outputs[0].datum.AdvertDatum? && s.tx.outputs[0].datum.offer.supplierPkh == slot.supplierPkh
       && s.datum == s.tx.outputs[0].datum && s.advertAddress == s.tx.outputs[0].address
       && s.tx.outputs[0].lovelace >= s.datum.offer.supplierBond
       && (s.layout == Identity <==> s.datum.agent.Some?)
       && s.advertAddress == (if s.layout == Identity then slot.identityAdverts else slot.legacyAdverts)
       && (forall r :: r in s.tx.inputs ==> C.At(r, slot.wallet))
       && (forall r :: r in s.tx.collateral ==> C.At(r, slot.wallet))
       && C.AllTo(s.tx.outputs[1..], slot.wallet)
       && s.walletDebit == C.AdvertDebit(s.tx)
       && 0 <= C.Exposure(s.walletDebit, C.Collateral(s.tx)) <= s.maxDebit
  }

  /** Later generations are identity adverts; only legacy adverts retire and only identity adverts are switched to. */
  predicate AdvertStateOk(row: Advert) {
    && (row.generation >= 2 ==> row.signed.layout == Identity)
    && (row.endReason == Some(Retired) ==> row.signed.layout == Legacy)
    && (row.switchedAt.Some? ==> row.signed.layout == Identity)
  }

  ghost predicate AdvertsChecked(cfg: Config, adverts: map<AdvertKey, Advert>) {
    forall k :: k in adverts ==> AdvertRowChecked(cfg, adverts[k].signed) && AdvertStateOk(adverts[k])
  }

  predicate IsPublished(db: Db, id: PublicationId) {
    id in db.publications && db.publications[id].phase == Published
  }

  /** A switched, live identity advert of the publication. */
  predicate SwitchedTo(adverts: map<AdvertKey, Advert>, k: AdvertKey) {
    k in adverts && adverts[k].switchedAt.Some? && Live(adverts[k])
  }

  ghost predicate HasSwitched(adverts: map<AdvertKey, Advert>, id: PublicationId) {
    exists g: nat :: SwitchedTo(adverts, AdvertKey(id, g))
  }

  ghost predicate RetirementChecked(cfg: Config, advert: SignedAdvert, r: SignedRetirement) {
    && advert.target in cfg.slots
    && var slot := cfg.slots[advert.target];
       && advert.advertRef in r.tx.inputs
       && (forall x :: x in r.tx.inputs && x != advert.advertRef ==> C.At(x, slot.wallet))
       && (forall x :: x in r.tx.collateral ==> C.At(x, slot.wallet))
       && C.AllTo(r.tx.outputs, slot.wallet)
       && r.walletDebit == C.RetireDebit(r.tx, advert.advertRef)
       && 0 <= C.Exposure(r.walletDebit, C.Collateral(r.tx)) <= r.maxDebit
  }

  /** A retirement is signed only for the legacy advert of a published slot that has switched. */
  ghost predicate RetirementOk(cfg: Config, db: Db, r: Retirement) {
    && r.signed.key in db.adverts && db.adverts[r.signed.key].signed.layout == Legacy
    && RetirementChecked(cfg, db.adverts[r.signed.key].signed, r.signed)
    && IsPublished(db, r.signed.key.publication)
    && HasSwitched(db.adverts, r.signed.key.publication)
  }

  ghost predicate RetirementsOk(cfg: Config, db: Db) {
    forall t :: t in db.retirements ==> RetirementOk(cfg, db, db.retirements[t])
  }

  ghost predicate PublishedConfirmed(db: Db) {
    forall id :: IsPublished(db, id) ==>
      AdvertKey(id, 1) in db.adverts && db.adverts[AdvertKey(id, 1)].confirmedAt.Some?
  }

  /** Only a published publication is advertised again. */
  ghost predicate LaterArePublished(db: Db) {
    forall k :: k in db.adverts && k.generation >= 2 ==> IsPublished(db, k.publication)
  }

  ghost predicate ServiceOk(cfg: Config, db: Db) {
    && S.JournalOk(db) && AdvertsChecked(cfg, db.adverts) && RetirementsOk(cfg, db)
    && PublishedConfirmed(db) && LaterArePublished(db)
  }

  /**
   What a publication's phase says about its other columns: from the end of its
   preparation on there is an image to serve, what waits for evidence or is
   published has signed, and only what is published has a publishing time to show.
   */
  predicate PhaseRowOk(p: Publication) {
    && (p.tx.Some? || p.phase == Prepared || p.phase == Publishing ==> p.runtimeImage.Some? && p.preparedAt.Some?)
    && (p.phase == ConfirmationPending || p.phase == Published ==> p.tx.Some?)
    && (p.phase == Published ==> p.publishedAt.Some?)
  }

  /** A journaled advert offers exactly the terms and the artifact of its publication, from its slot. */
  ghost predicate OfferRowOk(cfg: Config, publications: map<PublicationId, Publication>, s: SignedAdvert) {
    && s.target in cfg.slots && s.publication in publications && s.datum.AdvertDatum?
    && var slot, p, offer := cfg.slots[s.target], publications[s.publication], s.datum.offer;
       && offer.supplierPkh == slot.supplierPkh && offer.endpointUrl == slot.endpointUrl
       && offer.capabilityId == CAPABILITY && offer.model == p.artifact.model && offer.maxOutputTokens == 0
       && offer.maxProcessingMs == p.artifact.maxRuntimeMs + 150_000
       && offer.price == p.terms.price && offer.supplierBond == p.terms.supplierBond && offer.buyerBond == p.terms.buyerBond
       && offer.detailUri == NO_URI && offer.detailHash == p.artifact.manifestHash && offer.active
  }

  ghost predicate RowsOk(cfg: Config, db: Db) {
    && (forall id :: id in db.publications ==> PhaseRowOk(db.publications[id]))
    && (forall k :: k in db.adverts ==> OfferRowOk(cfg, db.publications, db.adverts[k].signed))
  }

  // ----- Evidence becomes journal changes -----

  /** What the read of one unconfirmed advert found. */
  datatype Finding = FoundOutput | InputsSpent | CannotConfirm | StillPossible

  function Examine(c: ChainState, s: SignedAdvert): Finding {
    if Unspent(c.entries, s.advertRef) then FoundOutput
    else if exists w :: w in s.walletInputs && !Unspent(c.entries, w.ref) then InputsSpent
    else if s.validUntil.Some? && c.tip > s.validUntil.value + ROLLBACK_SLOTS then CannotConfirm
    else StillPossible
  }

  function NoPatch(): S.Patch { S.Patch(None, None, None, None) }

  function ToPhase(phase: Phase): S.Patch { S.Patch(Some(phase), None, None, None) }

  function OrSame(db: Db, done: Result<Db, S.StoreError>): Db {
    if done.Ok? then done.value else db
  }

  predicate PublishConfirmed(db: Db, id: PublicationId) {
    AdvertKey(id, 1) in db.adverts && db.adverts[AdvertKey(id, 1)].confirmedAt.Some?
  }

  /**
   What a chain read says about generation 1 becomes two writes: the tables after
   the first, and the phase for the second. `confirmed` was read before the chain.
   */
  function RecordEvidence(db: Db, id: PublicationId, confirmed: bool, c: ChainState, at: Time): (Db, Option<Phase>) {
    var key := AdvertKey(id, 1);
    if key !in db.adverts then (db, Some(Prepared))
    else
      var row := db.adverts[key];
      if Unspent(c.entries, row.signed.advertRef) then (S.ConfirmAdvert(db, key, at), Some(Publishing))
      else if !confirmed && Examine(c, row.signed).CannotConfirm? then (S.ExpireAdvert(db, key, at), Some(Failed))
      else (db, None)
  }

  /** The second write: the phase, if no other operation changed it meanwhile. */
  function RecordPhase(db: Db, id: PublicationId, phase: Phase, to: Option<Phase>, at: Time): Db {
    OrSame(db, S.Update(db, id, {phase}, S.Patch(to, None, None, None), at))
  }

  /** What a chain read says about a later generation becomes at most one write. */
  function ResolveReadvert(db: Db, key: AdvertKey, c: ChainState, at: Time): Db {
    if key !in db.adverts then db
    else
      match Examine(c, db.adverts[key].signed)
      case FoundOutput => S.ConfirmAdvert(db, key, at)
      case CannotConfirm => S.ExpireAdvert(db, key, at)
      case _ => db
  }

  /** A missing output retires the advert. */
  function Settle(db: Db, key: AdvertKey, c: ChainState, retiredBy: Option<Tx>, at: Time): Db {
    if key in db.adverts && !Unspent(c.entries, db.adverts[key].signed.advertRef)
    then S.RetireAdvert(db, key, retiredBy, at) else db
  }

  /** A supplier start ends: the publication is published. */
  function FinishStart(db: Db, id: PublicationId, at: Time): Db
    requires id in db.publications
  {
    var phase := db.publications[id].phase;
    OrSame(db, S.Update(db, id, {phase},
                        if phase == Published then NoPatch() else S.Patch(Some(Published), None, None, Some(at)), at))
  }

  // ----- Every change the service makes keeps the invariant -----

  /** Nothing is rewritten, a published slot stays published and a switch is never undone. */
  ghost predicate Forward(db: Db, db': Db) {
    && Kept(db, db')
    && (forall id :: IsPublished(db, id) ==> IsPublished(db', id))
    && (forall k :: SwitchedTo(db.adverts, k) ==> SwitchedTo(db'.adverts, k))
  }

  /** Only the adverts of `keys` change; an added advert is neither confirmed nor ended. */
  ghost predicate Touches(db: Db, db': Db, keys: set<AdvertKey>) {
    forall k :: k in db'.adverts && k !in keys ==>
      if k in db.adverts then db'.adverts[k] == db.adverts[k]
      else db'.adverts[k].confirmedAt.None? && db'.adverts[k].endReason.None?
  }

  lemma ForwardTransitive(a: Db, b: Db, c: Db)
    requires Forward(a, b) && Forward(b, c)
    ensures Forward(a, c)
  {
    KeptTransitive(a, b, c);
    hide Kept;
  }

  lemma ForwardReflexive(db: Db)
    ensures Forward(db, db) && forall keys :: Touches(db, db, keys)
  {
    KeptReflexive(db);
    hide Kept;
  }

  lemma PublicationChangeKeeps(cfg: Config, db: Db, db': Db)
    requires ServiceOk(cfg, db) && S.JournalOk(db')
    requires Kept(db, db') && db'.adverts == db.adverts && db'.retirements == db.retirements
    requires forall id :: IsPublished(db, id) ==> IsPublished(db', id)
    requires forall id :: IsPublished(db', id) ==>
      AdvertKey(id, 1) in db.adverts && db.adverts[AdvertKey(id, 1)].confirmedAt.Some?
    ensures ServiceOk(cfg, db') && Forward(db, db') && Touches(db, db', {})
  {
    hide S.JournalOk, Kept, AdvertRowChecked, RetirementChecked;
  }

  /** Retirements stay justified while their adverts, publications and switches do. */
  lemma RetirementsStay(cfg: Config, db: Db, db': Db)
    requires RetirementsOk(cfg, db) && db'.retirements == db.retirements
    requires forall k :: k in db.adverts ==> k in db'.adverts && db'.adverts[k].signed == db.adverts[k].signed
    requires forall id :: IsPublished(db, id) ==> IsPublished(db', id)
    requires forall k :: SwitchedTo(db.adverts, k) ==> SwitchedTo(db'.adverts, k)
    ensures RetirementsOk(cfg, db')
  {
    hide RetirementChecked, HasSwitched;
    forall t | t in db'.retirements ensures RetirementOk(cfg, db', db'.retirements[t]) {
      assert RetirementOk(cfg, db, db.retirements[t]);
      SwitchSurvives(db.adverts, db'.adverts, db.retirements[t].signed.key.publication);
    }
  }

  lemma AdvertAddedKeeps(cfg: Config, db: Db, db': Db, row: Advert)
    requires ServiceOk(cfg, db) && S.JournalOk(db')
    requires KeyOf(row) !in db.adverts && AdvertRowChecked(cfg, row.signed) && AdvertStateOk(row)
    requires Kept(db, db') && row.confirmedAt.None? && row.endReason.None?
    requires row.generation >= 2 ==> IsPublished(db, row.signed.publication)
    requires db'.adverts == db.adverts[KeyOf(row) := row] && db'.retirements == db.retirements
    requires forall id :: IsPublished(db, id) <==> IsPublished(db', id)
    ensures ServiceOk(cfg, db') && Forward(db, db') && Touches(db, db', {})
  {
    hide S.JournalOk, Kept, AdvertRowChecked, RetirementsOk, IsPublished;
    RetirementsStay(cfg, db, db');
  }

  lemma SwitchSurvives(adverts: map<AdvertKey, Advert>, adverts': map<AdvertKey, Advert>, id: PublicationId)
    requires HasSwitched(adverts, id)
    requires forall k :: SwitchedTo(adverts, k) ==> SwitchedTo(adverts', k)
    ensures HasSwitched(adverts', id)
  {
    var g: nat :| SwitchedTo(adverts, AdvertKey(id, g));
    assert SwitchedTo(adverts', AdvertKey(id, g));
  }

  lemma AdvertSetKeeps(cfg: Config, db: Db, key: AdvertKey, row: Advert)
    requires ServiceOk(cfg, db) && key in db.adverts && AdvertChecks(row) && AdvertKept(db.adverts[key], row)
    requires AdvertStateOk(row) && (Live(row) ==> Live(db.adverts[key]))
    requires SwitchedTo(db.adverts, key) ==> Live(row)
    ensures var db' := S.SetAdvert(db, key, row); ServiceOk(cfg, db') && Forward(db, db') && Touches(db, db', {key})
  {
    hide S.JournalOk, Kept, AdvertRowChecked, RetirementsOk, IsPublished;
    S.SetAdvertKeeps(db, key, row);
    var db' := S.SetAdvert(db, key, row);
    assert forall id :: IsPublished(db, id) <==> IsPublished(db', id) by { SamePublished(db, db'); }
    RetirementsStay(cfg, db, db');
  }

  lemma SamePublished(db: Db, db': Db)
    requires db'.publications == db.publications
    ensures forall id :: IsPublished(db, id) <==> IsPublished(db', id)
  {
  }

  lemma CheckedAdvertIsRow(cfg: Config, id: PublicationId, expected: Datum, built: C.Built, visible: OutRef -> bool,
                           target: TargetId, maxDebit: nat, at: Time)
    requires ConfigOk(cfg) && target in cfg.slots && expected.AdvertDatum?
    requires expected.offer.supplierPkh == cfg.slots[target].supplierPkh
    requires C.PostsAdvert(cfg.slots[target], expected, built, visible) && C.AdvertDebit(built.tx) >= 0
    requires C.Exposure(C.AdvertDebit(built.tx), C.Collateral(built.tx)) <= maxDebit
    ensures AdvertRowChecked(cfg, C.SignedFrom(id, cfg.slots[target], expected, built.tx, maxDebit, at))
  {
  }

  lemma CheckedRetirementIsRow(cfg: Config, key: AdvertKey, advert: SignedAdvert, built: C.Built,
                               visible: OutRef -> bool, maxDebit: nat, at: Time)
    requires ConfigOk(cfg) && advert.target in cfg.slots
    requires C.RetiresAdvert(cfg.slots[advert.target], advert.advertRef, built, visible)
    requires C.Exposure(C.RetireDebit(built.tx, advert.advertRef), C.Collateral(built.tx)) <= maxDebit
    ensures RetirementChecked(cfg, advert, C.RetirementFrom(key, advert.advertRef, built.tx, maxDebit, at))
  {
    C.OthersAre(built.tx.inputs, advert.advertRef);
  }

  lemma RetirementAddedKeeps(cfg: Config, db: Db, a: SignedRetirement)
    requires ServiceOk(cfg, db) && S.JournalRetirement(db, a).Ok?
    requires RetirementOk(cfg, db, Retirement(a, None))
    ensures var db' := S.JournalRetirement(db, a).value;
      ServiceOk(cfg, db') && Forward(db, db') && Touches(db, db', {})
  {
    hide S.JournalOk, Kept, AdvertRowChecked, RetirementChecked;
    S.JournalRetirementKeeps(db, a);
  }

  lemma ConfirmKeeps(cfg: Config, db: Db, key: AdvertKey, at: Time)
    requires ServiceOk(cfg, db)
    ensures var db' := S.ConfirmAdvert(db, key, at);
      ServiceOk(cfg, db') && Forward(db, db') && Touches(db, db', {key})
  {
    hide S.JournalOk, Kept, AdvertRowChecked, RetirementChecked, AdvertsChecked, RetirementsOk;
    ForwardReflexive(db);
    if key in db.adverts && db.adverts[key].confirmedAt.None? {
      AdvertRowFacts(cfg, db, key);
      AdvertSetKeeps(cfg, db, key, db.adverts[key].(confirmedAt := Some(at)));
    }
  }

  lemma AdvertRowFacts(cfg: Config, db: Db, key: AdvertKey)
    requires ServiceOk(cfg, db) && key in db.adverts
    ensures AdvertChecks(db.adverts[key]) && AdvertStateOk(db.adverts[key]) && AdvertRowChecked(cfg, db.adverts[key].signed)
    ensures KeyOf(db.adverts[key]) == key
  {
    hide RetirementsOk, PublishedConfirmed;
  }

  lemma SwitchKeeps(cfg: Config, db: Db, key: AdvertKey, at: Time)
    requires ServiceOk(cfg, db) && S.SwitchAdvert(db, key, at).Ok?
    requires db.adverts[key].signed.layout == Identity
    ensures var db' := S.SwitchAdvert(db, key, at).value;
      ServiceOk(cfg, db') && Forward(db, db') && Touches(db, db', {key})
  {
    hide S.JournalOk, Kept, AdvertRowChecked, RetirementChecked, AdvertsChecked, RetirementsOk;
    ForwardReflexive(db);
    if db.adverts[key].switchedAt.None? {
      AdvertRowFacts(cfg, db, key);
      AdvertSetKeeps(cfg, db, key, db.adverts[key].(switchedAt := Some(at)));
    }
  }

  lemma ExpireKeeps(cfg: Config, db: Db, key: AdvertKey, at: Time)
    requires ServiceOk(cfg, db)
    ensures var db' := S.ExpireAdvert(db, key, at);
      ServiceOk(cfg, db') && Forward(db, db') && Touches(db, db', {key})
  {
    hide S.JournalOk, Kept, AdvertRowChecked, RetirementChecked, AdvertsChecked, RetirementsOk;
    ForwardReflexive(db);
    if key in db.adverts && db.adverts[key].confirmedAt.None? && Live(db.adverts[key]) {
      AdvertRowFacts(cfg, db, key);
      AdvertSetKeeps(cfg, db, key, db.adverts[key].(endedAt := Some(at), endReason := Some(Expired)));
    }
  }

  lemma ConfirmRetirementKeeps(cfg: Config, db: Db, key: AdvertKey, tx: Option<Tx>, at: Time)
    requires ServiceOk(cfg, db)
    ensures var db' := S.ConfirmRetirement(db, key, tx, at);
      ServiceOk(cfg, db') && Forward(db, db') && Touches(db, db', {})
  {
    hide S.JournalOk, Kept, AdvertRowChecked, RetirementChecked;
    S.ConfirmRetirementKeeps(db, key, tx, at);
    var db' := S.ConfirmRetirement(db, key, tx, at);
    forall t | t in db'.retirements ensures RetirementOk(cfg, db', db'.retirements[t]) {
      assert RetirementOk(cfg, db, db.retirements[t]);
    }
  }

  lemma RetireKeeps(cfg: Config, db: Db, key: AdvertKey, tx: Option<Tx>, at: Time)
    requires ServiceOk(cfg, db)
    requires key in db.adverts ==> db.adverts[key].signed.layout == Legacy
    ensures var db' := S.RetireAdvert(db, key, tx, at);
      ServiceOk(cfg, db') && Forward(db, db') && Touches(db, db', {key})
  {
    hide S.JournalOk, Kept, AdvertRowChecked, RetirementChecked, AdvertsChecked, RetirementsOk;
    ConfirmRetirementKeeps(cfg, db, key, tx, at);
    var mid := S.ConfirmRetirement(db, key, tx, at);
    ForwardReflexive(mid);
    if key in mid.adverts && Live(mid.adverts[key]) {
      AdvertRowFacts(cfg, mid, key);
      AdvertSetKeeps(cfg, mid, key, mid.adverts[key].(endedAt := Some(at), endReason := Some(Retired)));
    }
    ForwardTransitive(db, mid, S.RetireAdvert(db, key, tx, at));
  }

  lemma UpdateKeeps(cfg: Config, db: Db, id: PublicationId, from: set<Phase>, patch: S.Patch, at: Time)
    requires ServiceOk(cfg, db) && S.Update(db, id, from, patch, at).Ok?
    requires db.publications[id].phase == Published ==> patch.phase.None? || patch.phase.value == Published
    requires patch.phase == Some(Published) && db.publications[id].phase != Published ==>
      AdvertKey(id, 1) in db.adverts && db.adverts[AdvertKey(id, 1)].confirmedAt.Some?
    ensures var db' := S.Update(db, id, from, patch, at).value;
      ServiceOk(cfg, db') && Forward(db, db') && Touches(db, db', {})
  {
    hide S.JournalOk, Kept, AdvertRowChecked, RetirementChecked, AdvertsChecked, RetirementsOk;
    S.UpdateKeeps(db, id, from, patch, at);
    PublicationChangeKeeps(cfg, db, S.Update(db, id, from, patch, at).value);
  }

  lemma RecoverKeeps(cfg: Config, db: Db, at: Time)
    requires ServiceOk(cfg, db)
    ensures var db' := S.Recover(db, at);
      ServiceOk(cfg, db') && Forward(db, db') && Touches(db, db', {})
  {
    hide S.JournalOk, Kept, AdvertRowChecked, RetirementChecked, AdvertsChecked, RetirementsOk;
    S.RecoverKeeps(db, at);
    PublicationChangeKeeps(cfg, db, S.Recover(db, at));
  }

  lemma CreateKeeps(cfg: Config, db: Db, id: PublicationId, n: S.NewPublication, at: Time)
    requires ServiceOk(cfg, db) && S.Create(db, id, n, at).Ok?
    ensures var db' := S.Create(db, id, n, at).value;
      ServiceOk(cfg, db') && Forward(db, db') && Touches(db, db', {})
  {
    hide S.JournalOk, Kept, AdvertRowChecked, RetirementChecked, AdvertsChecked, RetirementsOk;
    S.CreateKeeps(db, id, n, at);
    PublicationChangeKeeps(cfg, db, S.Create(db, id, n, at).value);
  }

  lemma RetryKeeps(cfg: Config, db: Db, id: PublicationId, n: S.NewPublication, at: Time)
    requires ServiceOk(cfg, db) && S.Retry(db, id, n, at).Ok?
    ensures var db' := S.Retry(db, id, n, at).value;
      ServiceOk(cfg, db') && Forward(db, db') && Touches(db, db', {})
  {
    hide S.JournalOk, Kept, AdvertRowChecked, RetirementChecked, AdvertsChecked, RetirementsOk;
    S.RetryKeeps(db, id, n, at);
    PublicationChangeKeeps(cfg, db, S.Retry(db, id, n, at).value);
  }

  lemma JournalKeeps(cfg: Config, db: Db, t: SignedAdvert, at: Time)
    requires ServiceOk(cfg, db) && S.Journal(db, t, at).Ok? && AdvertRowChecked(cfg, t)
    ensures var db' := S.Journal(db, t, at).value;
      ServiceOk(cfg, db') && Forward(db, db') && Touches(db, db', {})
  {
    hide S.JournalOk, Kept, AdvertRowChecked, RetirementChecked, AdvertsChecked, RetirementsOk;
    S.JournalKeeps(db, t, at);
    AdvertAddedKeeps(cfg, db, S.Journal(db, t, at).value, S.NewAdvert(t, 1));
  }

  lemma JournalReadvertKeeps(cfg: Config, db: Db, t: SignedAdvert)
    requires ServiceOk(cfg, db) && S.JournalReadvert(db, t).Ok? && AdvertRowChecked(cfg, t) && t.layout == Identity
    ensures var db' := S.JournalReadvert(db, t).value;
      ServiceOk(cfg, db') && Forward(db, db') && Touches(db, db', {})
  {
    hide S.JournalOk, Kept, AdvertRowChecked, RetirementChecked, AdvertsChecked, RetirementsOk;
    S.JournalReadvertKeeps(db, t);
    S.NextGenerationIsNext(db, t.publication);
    AdvertAddedKeeps(cfg, db, S.JournalReadvert(db, t).value, S.NewAdvert(t, S.NextGeneration(db, t.publication)));
  }

  // ----- Evidence handling keeps it too -----

  lemma PhaseUpdateKeeps(cfg: Config, db: Db, id: PublicationId, from: Phase, patch: S.Patch, at: Time)
    requires ServiceOk(cfg, db)
    requires from == Published ==> patch.phase.None? || patch.phase.value == Published
    requires patch.phase == Some(Published) && from != Published ==> PublishConfirmed(db, id)
    ensures var db' := OrSame(db, S.Update(db, id, {from}, patch, at));
      ServiceOk(cfg, db') && Forward(db, db') && Touches(db, db', {}) && db'.adverts == db.adverts && db'.retirements == db.retirements
  {
    hide ServiceOk, Kept;
    ForwardReflexive(db);
    if S.Update(db, id, {from}, patch, at).Ok? {
      UpdateKeeps(cfg, db, id, {from}, patch, at);
    }
  }

  lemma RecordEvidenceKeeps(cfg: Config, db: Db, id: PublicationId, confirmed: bool, c: ChainState, at: Time)
    requires ServiceOk(cfg, db)
    ensures var db' := RecordEvidence(db, id, confirmed, c, at).0;
      ServiceOk(cfg, db') && Forward(db, db') && Touches(db, db', {AdvertKey(id, 1)})
    ensures var to := RecordEvidence(db, id, confirmed, c, at).1;
      to.None? || to.value == Prepared || to.value == Publishing || to.value == Failed
  {
    hide ServiceOk, Kept, Examine, Unspent;
    ForwardReflexive(db);
    ConfirmKeeps(cfg, db, AdvertKey(id, 1), at);
    ExpireKeeps(cfg, db, AdvertKey(id, 1), at);
  }

  lemma RecordPhaseKeeps(cfg: Config, db: Db, id: PublicationId, phase: Phase, to: Option<Phase>, at: Time)
    requires ServiceOk(cfg, db) && phase != Published && to != Some(Published)
    ensures var db' := RecordPhase(db, id, phase, to, at);
      ServiceOk(cfg, db') && Forward(db, db') && Touches(db, db', {}) && db'.adverts == db.adverts
  {
    hide ServiceOk, Forward, Touches;
    PhaseUpdateKeeps(cfg, db, id, phase, S.Patch(to, None, None, None), at);
  }

  /**
   A crash between the two writes is repaired: after boot recovery the same
   evidence is read again, and it leads to the phase that the lost write would have set.
   */
  lemma CrashBetweenWritesIsRepaired(db: Db, id: PublicationId, c: ChainState, at: Time, crash: Time, again: Time)
    requires S.JournalOk(db) && id in db.publications && AdvertKey(id, 1) in db.adverts
    requires db.publications[id].phase == Publishing || db.publications[id].phase == ConfirmationPending
    ensures var first := RecordEvidence(db, id, PublishConfirmed(db, id), c, at);
      var restarted := S.Recover(first.0, crash);
      var second := RecordEvidence(restarted, id, PublishConfirmed(restarted, id), c, again);
      && (restarted.publications[id].phase == Publishing || restarted.publications[id].phase == ConfirmationPending)
      && (first.1.Some? ==> second.0 == restarted && second.1 == first.1)
    ensures var row, restarted := db.adverts[AdvertKey(id, 1)], S.Recover(RecordEvidence(db, id, PublishConfirmed(db, id), c, at).0, crash);
      var second := RecordEvidence(restarted, id, PublishConfirmed(restarted, id), c, again).1;
      second ==
        if Unspent(c.entries, row.signed.advertRef) then Some(Publishing)
        else if row.confirmedAt.None? && row.signed.validUntil.Some? && c.tip > row.signed.validUntil.value + ROLLBACK_SLOTS
                && forall input :: input in row.signed.walletInputs ==> Unspent(c.entries, input.ref) then Some(Failed)
        else None
  {
    hide Unspent, SchemaOk, S.GenerationsContiguous, S.AdvertsInSlot;
    var key := AdvertKey(id, 1);
    var first := RecordEvidence(db, id, PublishConfirmed(db, id), c, at);
    assert db.publications[id].tx.Some?;
    assert first.0.adverts[key].signed == db.adverts[key].signed && first.0.publications == db.publications;
    assert S.Recover(first.0, crash).adverts == first.0.adverts;
  }

  lemma ResolveReadvertKeeps(cfg: Config, db: Db, key: AdvertKey, c: ChainState, at: Time)
    requires ServiceOk(cfg, db)
    ensures var db' := ResolveReadvert(db, key, c, at);
      ServiceOk(cfg, db') && Forward(db, db') && Touches(db, db', {key})
  {
    hide ServiceOk, Kept, Examine;
    ForwardReflexive(db);
    ConfirmKeeps(cfg, db, key, at);
    ExpireKeeps(cfg, db, key, at);
  }

  lemma SettleKeeps(cfg: Config, db: Db, key: AdvertKey, c: ChainState, retiredBy: Option<Tx>, at: Time)
    requires ServiceOk(cfg, db)
    requires key in db.adverts ==> db.adverts[key].signed.layout == Legacy
    ensures var db' := Settle(db, key, c, retiredBy, at);
      ServiceOk(cfg, db') && Forward(db, db') && Touches(db, db', {key})
  {
    hide ServiceOk, Kept, Unspent;
    ForwardReflexive(db);
    RetireKeeps(cfg, db, key, retiredBy, at);
  }

  lemma FinishStartKeeps(cfg: Config, db: Db, id: PublicationId, at: Time)
    requires ServiceOk(cfg, db) && id in db.publications
    requires db.publications[id].phase != Published ==> PublishConfirmed(db, id)
    ensures var db' := FinishStart(db, id, at);
      ServiceOk(cfg, db') && Forward(db, db') && Touches(db, db', {})
  {
    hide ServiceOk, Kept;
    var phase := db.publications[id].phase;
    PhaseUpdateKeeps(cfg, db, id, phase,
      if phase == Published then NoPatch() else S.Patch(Some(Published), None, None, Some(at)), at);
  }
}

/**
 The publisher on an append-only chain on which only journaled transactions
 spend advert outputs (they need the slot key). A published slot then always has
 an advert to serve that is confirmed, unspent and on the chain; it changes at
 most once, at the switch, and no retirement can leave the slot without one.
 */
module PublisherServing {
  import opened Prelude
  import opened Ledger
  import opened PublisherTables
  import C = AdvertCheck
  import S = PublisherStore
  import opened PublisherService
  import opened PublisherProtocol
  import opened PublisherSafety

  /** An output at an advert address that only a slot key of this publisher can spend. */
  ghost predicate OwnAdvert(cfg: Config, ref: OutRef) {
    && OutputOf(ref).Some? && OutputOf(ref).value.datum.AdvertDatum?
    && exists t :: t in cfg.slots && IsAdvertAddress(cfg.slots[t], OutputOf(ref).value.address)
         && OutputOf(ref).value.datum.offer.supplierPkh == cfg.slots[t].supplierPkh
  }

  /** The blocks of a step append, and spend advert outputs by journaled transactions only. */
  ghost predicate AppendOnly(cfg: Config, db: Db, step: Step) {
    step.ChainMoves? ==>
      && step.move.Extend?
      && forall e, r :: e in step.move.body && r in Consumed(e) && OwnAdvert(cfg, r) ==> IsJournaled(db, e.tx)
  }

  /** An attempt to retire the advert of this output is journaled. */
  ghost predicate RetirementJournaled(db: Db, ref: OutRef) {
    exists k :: k in db.adverts && db.adverts[k].signed.advertRef == ref && HasRetirement(db, k)
  }

  ghost predicate ConfirmedOnChain(db: Db, c: ChainState) {
    forall k :: k in db.adverts && db.adverts[k].confirmedAt.Some? ==> Included(c, db.adverts[k].signed.tx)
  }

  ghost predicate SpendsAreRetirements(cfg: Config, db: Db, c: ChainState) {
    forall r :: Spent(c.entries, r) && OwnAdvert(cfg, r) ==> RetirementJournaled(db, r)
  }

  ghost predicate RetiredWereSigned(db: Db) {
    forall k :: k in db.adverts && db.adverts[k].endReason == Some(Retired) ==> HasRetirement(db, k)
  }

  ghost predicate Growing(history: seq<ChainState>) {
    forall i, j :: 0 <= i <= j < |history| ==> history[i].entries <= history[j].entries
  }

  /** What a settling operation knows about the advert whose output it reads. */
  ghost predicate SettlingSaw(w: World, op: AdvertOp) {
    op.Settling? ==>
      && op.key in w.db.adverts
      && (HasRetirement(w.db, op.key)
          || (op.from < |w.history| && Included(w.history[op.from], w.db.adverts[op.key].signed.tx)))
  }

  ghost predicate SettlingsSaw(w: World) {
    forall t :: t in w.advertOps ==> SettlingSaw(w, w.advertOps[t])
  }

  ghost predicate Settles(cfg: Config, w: World) {
    && w.history != [] && Inv(cfg, w) && Growing(w.history)
    && ConfirmedOnChain(w.db, Current(w)) && SpendsAreRetirements(cfg, w.db, Current(w))
    && RetiredWereSigned(w.db) && SettlingsSaw(w)
  }

  // ----- Growing chains -----

  lemma PrefixKeeps(c: seq<Entry>, c': seq<Entry>)
    requires c <= c'
    ensures forall e :: e in c ==> e in c'
    ensures forall r :: Spent(c, r) ==> Spent(c', r)
    ensures forall r :: Created(c, r) ==> Created(c', r)
  {
  }

  lemma OnChainStays(w: World, i: nat, j: nat, tx: Tx)
    requires Growing(w.history) && i <= j < |w.history| && Included(w.history[i], tx)
    ensures Included(w.history[j], tx)
  {
    PrefixKeeps(w.history[i].entries, w.history[j].entries);
  }

  /** A checked advert whose output a chain shows as unspent is on that chain. */
  lemma SeenMeansIncluded(cfg: Config, s: SignedAdvert, c: ChainState)
    requires AdvertRowChecked(cfg, s) && Created(c.entries, s.advertRef)
    ensures Included(c, s.tx)
  {
    var e :| e in c.entries && e.tx == s.tx && Produces(e, 0);
    assert e.ok;
  }

  lemma IncludedMeansCreated(cfg: Config, s: SignedAdvert, c: ChainState)
    requires AdvertRowChecked(cfg, s) && Included(c, s.tx)
    ensures Created(c.entries, s.advertRef)
  {
    var e :| e in c.entries && e.tx == s.tx && e.ok;
    assert Produces(e, 0);
  }

  lemma AdvertRefIsOwn(cfg: Config, s: SignedAdvert)
    requires AdvertRowChecked(cfg, s)
    ensures OwnAdvert(cfg, s.advertRef)
  {
  }

  // ----- Who can spend an advert output -----

  lemma OwnAdvertIsNoWallet(cfg: Config, ref: OutRef, t: TargetId)
    requires ConfigOk(cfg) && OwnAdvert(cfg, ref) && t in cfg.slots
    ensures !C.At(ref, cfg.slots[t].wallet)
  {
  }

  lemma AdvertTxSpendsNoAdvert(cfg: Config, s: SignedAdvert, e: Entry, ref: OutRef)
    requires ConfigOk(cfg) && AdvertRowChecked(cfg, s) && e.tx == s.tx && ref in Consumed(e)
    ensures !OwnAdvert(cfg, ref)
  {
    if OwnAdvert(cfg, ref) {
      OwnAdvertIsNoWallet(cfg, ref, s.target);
    }
  }

  lemma RetirementSpendsItsAdvert(cfg: Config, advert: SignedAdvert, r: SignedRetirement, e: Entry, ref: OutRef)
    requires ConfigOk(cfg) && RetirementChecked(cfg, advert, r) && e.tx == r.tx && ref in Consumed(e) && OwnAdvert(cfg, ref)
    ensures ref == advert.advertRef
  {
    OwnAdvertIsNoWallet(cfg, ref, advert.target);
  }

  /** A journaled transaction that takes an advert output is a retirement of that advert. */
  lemma JournaledSpendIsRetirement(cfg: Config, db: Db, e: Entry, ref: OutRef)
    requires ConfigOk(cfg) && ServiceOk(cfg, db) && IsJournaled(db, e.tx) && ref in Consumed(e) && OwnAdvert(cfg, ref)
    ensures RetirementJournaled(db, ref)
  {
    hide ConfigOk, OwnAdvert, AdvertRowChecked, RetirementChecked, PublishedConfirmed, LaterArePublished, Consumed;
    if e.tx in db.retirements {
      var r := db.retirements[e.tx];
      assert RetirementOk(cfg, db, r);
      RetirementNamesKey(db, e.tx);
      RetirementTxIsKey(cfg, db, e.tx);
      RetirementSpendsItsAdvert(cfg, db.adverts[r.signed.key].signed, r.signed, e, ref);
    } else {
      var k :| k in db.adverts && db.adverts[k].signed.tx == e.tx;
      assert AdvertRowChecked(cfg, db.adverts[k].signed);
      AdvertTxSpendsNoAdvert(cfg, db.adverts[k].signed, e, ref);
    }
  }

  /** The output of a journaled advert is spent only when its retirement is journaled. */
  lemma SpentMeansRetirement(cfg: Config, db: Db, c: ChainState, key: AdvertKey)
    requires ServiceOk(cfg, db) && SpendsAreRetirements(cfg, db, c) && key in db.adverts
    requires Spent(c.entries, db.adverts[key].signed.advertRef)
    ensures HasRetirement(db, key)
  {
    hide Spent, OwnAdvert, HasRetirement;
    AdvertRowFacts(cfg, db, key);
    AdvertRefIsOwn(cfg, db.adverts[key].signed);
    var k :| k in db.adverts && db.adverts[k].signed.advertRef == db.adverts[key].signed.advertRef && HasRetirement(db, k);
    SameRefSameKey(cfg, db, key, k);
  }

  lemma SameRefSameKey(cfg: Config, db: Db, j: AdvertKey, k: AdvertKey)
    requires ServiceOk(cfg, db) && j in db.adverts && k in db.adverts
    requires db.adverts[j].signed.advertRef == db.adverts[k].signed.advertRef
    ensures j == k
  {
    hide RetirementsOk, PublishedConfirmed, LaterArePublished;
    assert AdvertRowChecked(cfg, db.adverts[j].signed) && AdvertRowChecked(cfg, db.adverts[k].signed);
  }

  // ----- One step keeps it -----

  ghost predicate NewlyConfirmed(db: Db, db': Db, k: AdvertKey) {
    k in db'.adverts && db'.adverts[k].confirmedAt.Some? && !(k in db.adverts && db.adverts[k].confirmedAt.Some?)
  }

  ghost predicate NewlyRetired(db: Db, db': Db, k: AdvertKey) {
    k in db'.adverts && db'.adverts[k].endReason == Some(Retired)
    && !(k in db.adverts && db.adverts[k].endReason == Some(Retired))
  }

  /** The confirmation or the retirement of an advert is backed by what was read or journaled. */
  ghost predicate KeyBacked(w: World, db': Db, k: AdvertKey) {
    && (NewlyConfirmed(w.db, db', k) ==> exists i :: 0 <= i < |w.history| && Included(w.history[i], db'.adverts[k].signed.tx))
    && (NewlyRetired(w.db, db', k) ==> HasRetirement(w.db, k))
  }

  ghost predicate Backed(w: World, db': Db) {
    forall k :: NewlyConfirmed(w.db, db', k) || NewlyRetired(w.db, db', k) ==> KeyBacked(w, db', k)
  }

  lemma TouchedBacks(w: World, db': Db, keys: set<AdvertKey>)
    requires Touches(w.db, db', keys) && forall k :: k in keys ==> KeyBacked(w, db', k)
    ensures Backed(w, db')
  {
    hide Included, HasRetirement;
  }

  ghost predicate SameOrSaw(w: World, w': World, t: TargetId) {
    t in w'.advertOps ==> SettlingSaw(w', w'.advertOps[t]) || (t in w.advertOps && w'.advertOps[t] == w.advertOps[t])
  }

  lemma TablesChangeSettles(cfg: Config, w: World, w': World)
    requires Settles(cfg, w) && Inv(cfg, w') && Forward(w.db, w'.db) && Backed(w, w'.db)
    requires w'.history == w.history
    requires forall t :: SameOrSaw(w, w', t)
    ensures Settles(cfg, w')
  {
    hide Inv, Included, HasRetirement, OwnAdvert, Spent;
    KeptRowsStay(w.db, w'.db);
    forall k | k in w'.db.adverts && w'.db.adverts[k].confirmedAt.Some? ensures Included(Current(w'), w'.db.adverts[k].signed.tx) {
      if NewlyConfirmed(w.db, w'.db, k) {
        assert KeyBacked(w, w'.db, k);
        var i :| 0 <= i < |w.history| && Included(w.history[i], w'.db.adverts[k].signed.tx);
        OnChainStays(w, i, |w.history| - 1, w'.db.adverts[k].signed.tx);
      }
    }
    forall r | Spent(Current(w').entries, r) && OwnAdvert(cfg, r) ensures RetirementJournaled(w'.db, r) {
      var k :| k in w.db.adverts && w.db.adverts[k].signed.advertRef == r && HasRetirement(w.db, k);
      assert k in w'.db.adverts && w'.db.adverts[k].signed.advertRef == r && HasRetirement(w'.db, k);
    }
    forall k | k in w'.db.adverts && w'.db.adverts[k].endReason == Some(Retired) ensures HasRetirement(w'.db, k) {
      assert HasRetirement(w.db, k) by {
        if NewlyRetired(w.db, w'.db, k) {
          assert KeyBacked(w, w'.db, k);
        } else {
          assert k in w.db.adverts && w.db.adverts[k].endReason == Some(Retired);
        }
      }
    }
    forall t | t in w'.advertOps ensures SettlingSaw(w', w'.advertOps[t]) {
      assert SameOrSaw(w, w', t);
      if t in w.advertOps && w'.advertOps[t] == w.advertOps[t] {
        assert SettlingSaw(w, w.advertOps[t]);
        SettlingStaysOk(cfg, w, w', w.advertOps[t]);
      }
    }
  }

  lemma SettlingStaysOk(cfg: Config, w: World, w': World, op: AdvertOp)
    requires Inv(cfg, w) && SettlingSaw(w, op)
    requires Forward(w.db, w'.db) && w'.history == w.history
    ensures SettlingSaw(w', op)
  {
    hide Inv, Included, HasRetirement;
    KeptRowsStay(w.db, w'.db);
  }

  lemma ChainMoveSettles(cfg: Config, w: World, move: ChainMove, next: ChainState, w': World)
    requires ConfigOk(cfg) && Settles(cfg, w) && Inv(cfg, w')
    requires w' == w.(history := w.history + [next]) && ChainStep(Current(w), move, next)
    requires AppendOnly(cfg, w.db, ChainMoves(move, next))
    ensures Settles(cfg, w')
  {
    hide ConfigOk, Included, HasRetirement, OwnAdvert, ServiceOk, ChainRun, OpsOk, ExpiredAreDead, IsJournaled, RetirementJournaled, ValidEntries;
    var c := Current(w);
    assert c.entries <= next.entries;
    GrowingExtends(w.history, next);
    assert Current(w') == next;
    forall k | k in w.db.adverts && w.db.adverts[k].confirmedAt.Some? ensures Included(next, w.db.adverts[k].signed.tx) {
      OnChainStays(w', |w.history| - 1, |w.history|, w.db.adverts[k].signed.tx);
    }
    forall r | Spent(next.entries, r) && OwnAdvert(cfg, r) ensures RetirementJournaled(w.db, r) {
      if !Spent(c.entries, r) {
        var e :| e in next.entries && r in Consumed(e);
        assert e !in c.entries && e in move.body;
        JournaledSpendIsRetirement(cfg, w.db, e, r);
      }
    }
    forall t | t in w'.advertOps ensures SettlingSaw(w', w'.advertOps[t]) {
      assert SettlingSaw(w, w.advertOps[t]);
    }
  }

  lemma GrowingExtends(history: seq<ChainState>, next: ChainState)
    requires Growing(history) && history != [] && history[|history| - 1].entries <= next.entries
    ensures Growing(history + [next])
  {
    var longer := history + [next];
    forall i, j | 0 <= i <= j < |longer| ensures longer[i].entries <= longer[j].entries {
      if j == |history| && i < j {
        assert history[i].entries <= history[|history| - 1].entries;
      }
    }
  }

  lemma SeenIsIncluded(cfg: Config, w: World, i: nat, k: AdvertKey)
    requires ServiceOk(cfg, w.db) && Sees(w, i, k)
    ensures Included(w.history[i], w.db.adverts[k].signed.tx)
  {
    hide Included, Created, Spent;
    AdvertRowFacts(cfg, w.db, k);
    SeenMeansIncluded(cfg, w.db.adverts[k].signed, w.history[i]);
  }

  lemma ConfirmIsBacked(w: World, key: AdvertKey, at: Time, i: nat)
    requires i < |w.history| && key in w.db.adverts && Included(w.history[i], w.db.adverts[key].signed.tx)
    ensures KeyBacked(w, S.ConfirmAdvert(w.db, key, at), key)
  {
    hide Included, HasRetirement;
  }

  lemma ExpireIsBacked(w: World, key: AdvertKey, at: Time)
    ensures KeyBacked(w, S.ExpireAdvert(w.db, key, at), key)
  {
    hide Included, HasRetirement;
  }

  lemma SwitchIsBacked(w: World, key: AdvertKey, at: Time)
    ensures KeyBacked(w, OrSame(w.db, S.SwitchAdvert(w.db, key, at)), key)
  {
    hide Included, HasRetirement;
  }

  lemma RetireIsBacked(w: World, key: AdvertKey, tx: Option<Tx>, at: Time)
    requires HasRetirement(w.db, key)
    ensures KeyBacked(w, S.RetireAdvert(w.db, key, tx, at), key)
  {
    hide Included, HasRetirement;
  }

  lemma SameIsBacked(w: World, key: AdvertKey)
    ensures KeyBacked(w, w.db, key)
  {
    hide Included, HasRetirement;
  }

  lemma RecordEvidenceIsBacked(cfg: Config, w: World, id: PublicationId, confirmed: bool, i: nat, at: Time)
    requires ServiceOk(cfg, w.db) && i < |w.history|
    ensures KeyBacked(w, RecordEvidence(w.db, id, confirmed, w.history[i], at).0, AdvertKey(id, 1))
  {
    hide ServiceOk, Examine, Unspent, Included, KeyBacked;
    var key := AdvertKey(id, 1);
    SameIsBacked(w, key);
    ExpireIsBacked(w, key, at);
    if key in w.db.adverts && Unspent(w.history[i].entries, w.db.adverts[key].signed.advertRef) {
      SeenIsIncluded(cfg, w, i, key);
      ConfirmIsBacked(w, key, at, i);
    }
  }

  lemma ResolveReadvertIsBacked(cfg: Config, w: World, key: AdvertKey, i: nat, at: Time)
    requires ServiceOk(cfg, w.db) && i < |w.history|
    ensures KeyBacked(w, ResolveReadvert(w.db, key, w.history[i], at), key)
  {
    hide ServiceOk, Unspent, Included, KeyBacked;
    SameIsBacked(w, key);
    ExpireIsBacked(w, key, at);
    if key in w.db.adverts && Examine(w.history[i], w.db.adverts[key].signed).FoundOutput? {
      SeenIsIncluded(cfg, w, i, key);
      ConfirmIsBacked(w, key, at, i);
    }
  }

  lemma MissingIsSpent(cfg: Config, s: SignedAdvert, c: ChainState)
    requires AdvertRowChecked(cfg, s) && Included(c, s.tx) && !Unspent(c.entries, s.advertRef)
    ensures Spent(c.entries, s.advertRef)
  {
    hide Spent, Created, AdvertRowChecked;
    IncludedMeansCreated(cfg, s, c);
  }

  /** A settling read that misses the output found it spent, by a journaled retirement. */
  lemma MissingMeansRetirement(cfg: Config, w: World, key: AdvertKey, from: nat, i: nat)
    requires ServiceOk(cfg, w.db) && Growing(w.history) && w.history != [] && SpendsAreRetirements(cfg, w.db, Current(w))
    requires SettlingSaw(w, Settling(key, from)) && Between(w, from, i) && !Sees(w, i, key)
    ensures HasRetirement(w.db, key)
  {
    hide ServiceOk, SpendsAreRetirements, Included, HasRetirement, Spent, Created, Growing;
    if !HasRetirement(w.db, key) {
      var s := w.db.adverts[key].signed;
      OnChainStays(w, from, i, s.tx);
      AdvertRowFacts(cfg, w.db, key);
      MissingIsSpent(cfg, s, w.history[i]);
      SpentStays(w, i, s.advertRef);
      SpentMeansRetirement(cfg, w.db, Current(w), key);
    }
  }

  lemma SpentStays(w: World, i: nat, ref: OutRef)
    requires Growing(w.history) && i < |w.history| && Spent(w.history[i].entries, ref)
    ensures Spent(Current(w).entries, ref)
  {
    PrefixKeeps(w.history[i].entries, w.history[|w.history| - 1].entries);
  }

  lemma SettleIsBacked(cfg: Config, w: World, key: AdvertKey, from: nat, i: nat, retiredBy: Option<Tx>, at: Time)
    requires Settles(cfg, w) && SettlingSaw(w, Settling(key, from)) && Between(w, from, i)
    ensures KeyBacked(w, Settle(w.db, key, w.history[i], retiredBy, at), key)
  {
    hide ServiceOk, ChainRun, OpsOk, Unspent, KeyBacked, SpendsAreRetirements, Growing, S.RetireAdvert, HasRetirement, Included;
    SameIsBacked(w, key);
    if !Sees(w, i, key) {
      MissingMeansRetirement(cfg, w, key, from, i);
      RetireIsBacked(w, key, retiredBy, at);
    }
  }

  lemma StepIsBacked(cfg: Config, w: World, step: Step, w': World)
    requires ConfigOk(cfg) && Settles(cfg, w) && Next(cfg, w, step, w') && Touches(w.db, w'.db, StepTouches(w, step))
    ensures Backed(w, w'.db)
  {
    hide ConfigOk, ServiceOk, ChainRun, OpsOk, ExpiredAreDead, SentJournaled, RetiredWereSigned, ConfirmedOnChain, SpendsAreRetirements,
         Included, Touches, KeyBacked, Backed, RecordEvidence, ResolveReadvert, Settle, S.ConfirmAdvert, S.SwitchAdvert, S.RetireAdvert,
         PublishStep, AdvertStep, StartStep;
    match step {
      case Publish(id, p, at) => PublishIsBacked(cfg, w, id, p, at, w');
      case Adverts(target, a, at) => AdvertIsBacked(cfg, w, target, a, at, w');
      case Start(target, s, at) => StartIsBacked(cfg, w, target, s, at, w');
      case _ =>
    }
    TouchedBacks(w, w'.db, StepTouches(w, step));
  }

  lemma PublishIsBacked(cfg: Config, w: World, id: PublicationId, m: PublishMove, at: Time, w': World)
    requires Settles(cfg, w) && PublishStep(cfg, w, id, m, at, w')
    ensures forall k :: k in PublishTouches(id, m) ==> KeyBacked(w, w'.db, k)
  {
    hide ServiceOk, ChainRun, AdvertOpsOk, StartOpsOk, ExpiredAreDead, SentJournaled, RetiredWereSigned, ConfirmedOnChain, SpendsAreRetirements,
         Included, KeyBacked, RecordEvidence, S.ConfirmAdvert, Approved, SettlingsSaw, Growing;
    match m
    case PublishConfirms(i) =>
      assert PublishOpOk(w.db, id, w.publishOps[id]);
      ConfirmIsBacked(w, AdvertKey(id, 1), at, i);
    case ResolveReads(i) => RecordEvidenceIsBacked(cfg, w, id, w.publishOps[id].confirmed, i, at);
    case _ =>
  }

  lemma ConfirmedIsBacked(cfg: Config, w: World, target: TargetId, m: AdvertMove, at: Time, w': World)
    requires Settles(cfg, w) && AdvertStep(cfg, w, target, m, at, w') && (m.ReadvertConfirms? || m.RetireConfirms?)
    ensures target in w.advertOps && KeyBacked(w, w'.db, w.advertOps[target].key)
  {
    hide ServiceOk, ChainRun, PublishOpsOk, StartOpsOk, ExpiredAreDead, SentJournaled, RetiredWereSigned, ConfirmedOnChain, SpendsAreRetirements,
         Included, KeyBacked, S.ConfirmAdvert, S.RetireAdvert, Growing, HasRetirement, SettlingsSaw, HasSwitched, IsPublished;
    var op := w.advertOps[target];
    assert AdvertOpOk(w.db, op);
    if m.ReadvertConfirms? {
      ConfirmIsBacked(w, op.key, at, m.i);
    } else {
      RetirementNamesKey(w.db, op.tx);
      RetireIsBacked(w, op.key, Some(op.tx), at);
    }
  }

  lemma EvidenceIsBacked(cfg: Config, w: World, target: TargetId, m: AdvertMove, at: Time, w': World)
    requires Settles(cfg, w) && AdvertStep(cfg, w, target, m, at, w') && (m.ReadvertResolves? || m.SwitchEnds? || m.SettleEnds?)
    ensures target in w.advertOps && KeyBacked(w, w'.db, w.advertOps[target].key)
  {
    hide ServiceOk, ChainRun, OpsOk, ExpiredAreDead, SentJournaled, RetiredWereSigned, ConfirmedOnChain, SpendsAreRetirements,
         Included, KeyBacked, ResolveReadvert, Settle, S.SwitchAdvert, Growing, HasRetirement, Unspent;
    var op := w.advertOps[target];
    match m
    case ReadvertResolves(i) => ResolveReadvertIsBacked(cfg, w, op.key, i, at);
    case SwitchEnds(i) => SwitchIsBacked(w, op.key, at);
    case SettleEnds(i, retiredBy) => SettleIsBacked(cfg, w, op.key, op.from, i, retiredBy, at);
  }

  lemma AdvertIsBacked(cfg: Config, w: World, target: TargetId, m: AdvertMove, at: Time, w': World)
    requires Settles(cfg, w) && AdvertStep(cfg, w, target, m, at, w')
    ensures forall k :: k in AdvertTouches(w, target, m) ==> KeyBacked(w, w'.db, k)
  {
    hide Settles, AdvertStep, KeyBacked;
    if m.ReadvertConfirms? || m.RetireConfirms? {
      ConfirmedIsBacked(cfg, w, target, m, at, w');
    } else if m.ReadvertResolves? || m.SwitchEnds? || m.SettleEnds? {
      EvidenceIsBacked(cfg, w, target, m, at, w');
    }
  }

  lemma StartIsBacked(cfg: Config, w: World, target: TargetId, m: StartMove, at: Time, w': World)
    requires Settles(cfg, w) && StartStep(w, target, m, at, w')
    ensures forall k :: k in StartTouches(w, target, m) ==> KeyBacked(w, w'.db, k)
  {
    hide ServiceOk, ChainRun, OpsOk, ExpiredAreDead, SentJournaled, RetiredWereSigned, ConfirmedOnChain, SpendsAreRetirements,
         Included, KeyBacked, S.ConfirmAdvert, SettlingsSaw, Growing;
    match m
    case StartConfirms(i) =>
      SeenIsIncluded(cfg, w, i, w.startOps[target].key);
      ConfirmIsBacked(w, w.startOps[target].key, at, i);
    case _ =>
  }

  /** A settling read of a published legacy advert begins when that advert is on the chain. */
  lemma SettleBeginsSaw(cfg: Config, w: World, key: AdvertKey)
    requires Settles(cfg, w) && key in w.db.adverts
    requires (w.db.adverts[key].signed.layout == Legacy && IsPublished(w.db, key.publication)) || HasRetirement(w.db, key)
    ensures HasRetirement(w.db, key) || Included(Current(w), w.db.adverts[key].signed.tx)
  {
    hide S.JournalOk, ChainRun, OpsOk, ExpiredAreDead, SentJournaled, RetiredWereSigned, SpendsAreRetirements, SettlingsSaw, Growing,
         RetirementsOk, Included, HasRetirement, LaterArePublished;
    AdvertRowFacts(cfg, w.db, key);
    if !HasRetirement(w.db, key) {
      assert key == AdvertKey(key.publication, 1);
    }
  }

  lemma AdvertOpsSaw(cfg: Config, w: World, target: TargetId, m: AdvertMove, at: Time, w': World, t: TargetId)
    requires Settles(cfg, w) && AdvertStep(cfg, w, target, m, at, w')
    ensures SameOrSaw(w, w', t) && w'.history == w.history
  {
    hide ServiceOk, ChainRun, OpsOk, ExpiredAreDead, SentJournaled, RetiredWereSigned, ConfirmedOnChain, SpendsAreRetirements, SettlingsSaw,
         Included, ResolveReadvert, Settle, S.ConfirmAdvert, S.SwitchAdvert, S.RetireAdvert, Approved, RetirementApproved, Growing, HasRetirement, IsPublished,
         S.JournalReadvert, S.JournalRetirement, S.NextGeneration, S.LiveIdentityAdvert, S.Adverts, SwitchedTo, Unspent;
    match m
    case SettleReads(key) => SettleBeginsSaw(cfg, w, key);
    case _ =>
  }

  lemma OpsSaw(cfg: Config, w: World, step: Step, w': World, t: TargetId)
    requires Settles(cfg, w) && Next(cfg, w, step, w') && !step.ChainMoves?
    ensures SameOrSaw(w, w', t) && w'.history == w.history
  {
    hide Settles, S.JournalOk, AdvertStep, SettlingSaw, S.Retry, S.Create, S.Update, S.Journal, S.ConfirmAdvert, RecordEvidence, RecordPhase,
         Approved, FinishStart, S.ServingAdvert, S.Adverts, S.Recover, Included, Unspent;
    if step.Adverts? {
      AdvertOpsSaw(cfg, w, step.target, step.a, step.at, w', t);
    }
  }

  lemma NextSettles(cfg: Config, w: World, step: Step, w': World)
    requires ConfigOk(cfg) && Settles(cfg, w) && Next(cfg, w, step, w') && AppendOnly(cfg, w.db, step)
    ensures Settles(cfg, w')
  {
    hide ConfigOk, ServiceOk, ChainRun, OpsOk, ExpiredAreDead, SentJournaled, RetiredWereSigned, ConfirmedOnChain, SpendsAreRetirements,
         SettlingsSaw, Growing, Forward, Touches, Backed, StepTouches, AppendOnly, ChainStep, AdvertStep, PublishStep, StartStep, SameOrSaw;
    NextKeeps(cfg, w, step, w');
    if step.ChainMoves? {
      ChainMoveSettles(cfg, w, step.move, step.next, w');
    } else {
      StepIsBacked(cfg, w, step, w');
      forall t ensures SameOrSaw(w, w', t) && w'.history == w.history {
        OpsSaw(cfg, w, step, w', t);
      }
      OpsSaw(cfg, w, step, w', 0);
      TablesChangeSettles(cfg, w, w');
    }
  }

  /** One step of a run on an append-only chain. */
  ghost predicate AppendStep(cfg: Config, w: World, w': World) {
    w.history != [] && S.JournalOk(w.db) && exists step :: Next(cfg, w, step, w') && AppendOnly(cfg, w.db, step)
  }

  /** What the journal says about confirmed and retired adverts agrees with the chain; empty tables and an unused slot key do. */
  ghost predicate Agrees(cfg: Config, db: Db, c: ChainState) {
    ConfirmedOnChain(db, c) && SpendsAreRetirements(cfg, db, c) && RetiredWereSigned(db)
  }

  ghost predicate AppendRun(cfg: Config, ws: seq<World>) {
    && ws != [] && Boots(cfg, ws[0]) && Agrees(cfg, ws[0].db, ws[0].history[0])
    && forall i, j :: 0 <= i && j == i + 1 && j < |ws| ==> AppendStep(cfg, ws[i], ws[j])
  }

  lemma {:induction false} AppendRunSettles(cfg: Config, ws: seq<World>, i: nat)
    requires ConfigOk(cfg) && AppendRun(cfg, ws) && i < |ws|
    ensures Settles(cfg, ws[i])
  {
    hide Next, ConfigOk, Settles, AppendOnly, Boots, Agrees;
    if i == 0 {
      FirstSettles(cfg, ws[0]);
    } else {
      AppendRunSettles(cfg, ws, i - 1);
      assert AppendStep(cfg, ws[i - 1], ws[i]);
      var step :| Next(cfg, ws[i - 1], step, ws[i]) && AppendOnly(cfg, ws[i - 1].db, step);
      NextSettles(cfg, ws[i - 1], step, ws[i]);
    }
  }

  lemma FirstSettles(cfg: Config, w: World)
    requires Boots(cfg, w) && Agrees(cfg, w.db, w.history[0])
    ensures Settles(cfg, w)
  {
    hide Inv, ValidChain, ServiceOk, ExpiredAreDead, ConfirmedOnChain, SpendsAreRetirements, RetiredWereSigned;
    BootsOk(cfg, w);
  }

  lemma AppendRunIsRun(cfg: Config, ws: seq<World>)
    requires AppendRun(cfg, ws)
    ensures Run(cfg, ws)
  {
    hide Next, Boots, AppendOnly, Agrees;
    forall i, j | 0 <= i && j == i + 1 && j < |ws| ensures Steps(cfg, ws[i], ws[j]) {
      assert AppendStep(cfg, ws[i], ws[j]);
    }
  }

  // ----- A published slot always serves -----

  ghost predicate ServedBy(w: World, id: PublicationId, key: AdvertKey)
    requires S.JournalOk(w.db)
  {
    S.ServingAdvert(S.Adverts(w.db, id)).Some? && KeyOf(S.ServingAdvert(S.Adverts(w.db, id)).value) == key
  }

  /** The advert to serve: the switched one if there is one, else the publish advert. */
  lemma WhoServes(cfg: Config, w: World, id: PublicationId)
    requires Settles(cfg, w) && IsPublished(w.db, id)
    ensures HasSwitched(w.db.adverts, id) ==>
      exists g: nat :: ServedBy(w, id, AdvertKey(id, g)) && SwitchedTo(w.db.adverts, AdvertKey(id, g))
    ensures !HasSwitched(w.db.adverts, id) ==> ServedBy(w, id, AdvertKey(id, 1)) && Live(w.db.adverts[AdvertKey(id, 1)])
  {
    hide ChainRun, OpsOk, ExpiredAreDead, SentJournaled, SpendsAreRetirements, SettlingsSaw, Growing,
         AdvertsChecked, RetirementsOk, LaterArePublished, Included, HasRetirement, RetiredWereSigned, ConfirmedOnChain;
    if HasSwitched(w.db.adverts, id) {
      var g: nat :| SwitchedTo(w.db.adverts, AdvertKey(id, g));
      S.SwitchedServes(w.db, id, g);
      var key := KeyOf(S.ServingAdvert(S.Adverts(w.db, id)).value);
      assert AdvertKey(id, key.generation) == key;
    } else {
      PublishAdvertLives(cfg, w, id);
      S.PublishServes(w.db, id);
    }
  }

  /** Before the switch the publish advert of a published slot is live. */
  lemma PublishAdvertLives(cfg: Config, w: World, id: PublicationId)
    requires Settles(cfg, w) && IsPublished(w.db, id) && !HasSwitched(w.db.adverts, id)
    ensures AdvertKey(id, 1) in w.db.adverts && Live(w.db.adverts[AdvertKey(id, 1)])
  {
    hide S.JournalOk, ChainRun, OpsOk, SentJournaled, SpendsAreRetirements, SettlingsSaw, Growing, AdvertRowChecked,
         RetirementsOk, LaterArePublished, Included, HasRetirement, HasSwitched;
    var key := AdvertKey(id, 1);
    assert w.db.adverts[key].confirmedAt.Some?;
    NotExpiredWhenIncluded(cfg, w, key);
    if w.db.adverts[key].endReason == Some(Retired) {
      RetirementIsLegacy(cfg, w.db, key);
    }
    AdvertRowFacts(cfg, w.db, key);
    match w.db.adverts[key].endReason {
      case None =>
      case Some(reason) => match reason { case Expired => case Retired => }
    }
  }

  /** A confirmed live advert that is switched to, or is the publish advert before the switch, is unspent on the chain. */
  lemma ServedIsUnspent(cfg: Config, w: World, key: AdvertKey)
    requires Settles(cfg, w) && key in w.db.adverts && w.db.adverts[key].confirmedAt.Some?
    requires SwitchedTo(w.db.adverts, key) || !HasSwitched(w.db.adverts, key.publication)
    ensures Unspent(Current(w).entries, w.db.adverts[key].signed.advertRef)
    ensures Included(Current(w), w.db.adverts[key].signed.tx)
  {
    hide S.JournalOk, ChainRun, OpsOk, SentJournaled, SpendsAreRetirements, SettlingsSaw, Growing, AdvertRowChecked,
         RetirementsOk, LaterArePublished, Included, HasRetirement, HasSwitched, Spent, Created, ExpiredAreDead, RetiredWereSigned;
    AdvertRowFacts(cfg, w.db, key);
    IncludedMeansCreated(cfg, w.db.adverts[key].signed, Current(w));
    if Spent(Current(w).entries, w.db.adverts[key].signed.advertRef) {
      SpentMeansRetirement(cfg, w.db, Current(w), key);
      RetirementIsLegacy(cfg, w.db, key);
    }
  }

  /**
   On an append-only chain a published slot always has an advert to serve, and
   that advert is live, confirmed, on the chain and unspent there.
   */
  lemma PublishedSlotAlwaysServes(cfg: Config, ws: seq<World>, i: nat, id: PublicationId)
    requires ConfigOk(cfg) && AppendRun(cfg, ws) && i < |ws| && IsPublished(ws[i].db, id)
    ensures S.JournalOk(ws[i].db) && ws[i].history != []
    ensures exists g: nat :: var key := AdvertKey(id, g);
      && ServedBy(ws[i], id, key) && key in ws[i].db.adverts
      && Live(ws[i].db.adverts[key]) && ws[i].db.adverts[key].confirmedAt.Some?
      && Included(Current(ws[i]), ws[i].db.adverts[key].signed.tx)
      && Unspent(Current(ws[i]).entries, ws[i].db.adverts[key].signed.advertRef)
  {
    hide AppendRun, Included, Unspent, ConfigOk, ServedBy, ChainRun, OpsOk, SentJournaled, SpendsAreRetirements, SettlingsSaw, Growing,
      AdvertsChecked, RetirementsOk, LaterArePublished, HasSwitched, RetiredWereSigned, ExpiredAreDead, ConfirmedOnChain;
    AppendRunSettles(cfg, ws, i);
    var w := ws[i];
    WhoServes(cfg, w, id);
    if HasSwitched(w.db.adverts, id) {
      var g: nat :| ServedBy(w, id, AdvertKey(id, g)) && SwitchedTo(w.db.adverts, AdvertKey(id, g));
      AdvertRowFacts(cfg, w.db, AdvertKey(id, g));
      ServedIsUnspent(cfg, w, AdvertKey(id, g));
    } else {
      ServedIsUnspent(cfg, w, AdvertKey(id, 1));
    }
  }

  // ----- It changes at most once -----

  lemma SwitchedIsUnique(cfg: Config, db: Db, j: AdvertKey, k: AdvertKey)
    requires ServiceOk(cfg, db) && SwitchedTo(db.adverts, j) && SwitchedTo(db.adverts, k) && j.publication == k.publication
    ensures j == k
  {
    hide RetirementsOk, PublishedConfirmed, LaterArePublished, AdvertRowChecked;
    AdvertRowFacts(cfg, db, j);
    AdvertRowFacts(cfg, db, k);
    LiveOnePerLayout(cfg, db, j, k);
  }

  /** The served advert is the switched one, or the publish advert while nothing is switched. */
  lemma ServedIsSwitchedOrPublish(cfg: Config, w: World, id: PublicationId, key: AdvertKey)
    requires Settles(cfg, w) && IsPublished(w.db, id) && ServedBy(w, id, key)
    ensures key.publication == id
    ensures if HasSwitched(w.db.adverts, id) then SwitchedTo(w.db.adverts, key) else key == AdvertKey(id, 1)
  {
    hide Settles, Inv, HasSwitched, IsPublished;
    WhoServes(cfg, w, id);
    SettlesMeansInv(cfg, w);
    if HasSwitched(w.db.adverts, id) {
      var g: nat :| ServedBy(w, id, AdvertKey(id, g)) && SwitchedTo(w.db.adverts, AdvertKey(id, g));
    }
  }

  lemma SettlesMeansInv(cfg: Config, w: World)
    requires Settles(cfg, w)
    ensures Inv(cfg, w) && ServiceOk(cfg, w.db)
  {
  }

  lemma SwitchPersists(cfg: Config, ws: seq<World>, i: nat, j: nat, id: PublicationId, key: AdvertKey)
    requires ConfigOk(cfg) && AppendRun(cfg, ws) && i <= j < |ws|
    ensures IsPublished(ws[i].db, id) ==> IsPublished(ws[j].db, id)
    ensures SwitchedTo(ws[i].db.adverts, key) ==> SwitchedTo(ws[j].db.adverts, key)
    ensures HasSwitched(ws[i].db.adverts, id) ==> HasSwitched(ws[j].db.adverts, id)
  {
    hide AppendRun, Run, ConfigOk, Kept, HasSwitched, IsPublished, SwitchedTo;
    AppendRunIsRun(cfg, ws);
    RunIsForward(cfg, ws, i, j);
    if HasSwitched(ws[i].db.adverts, id) {
      SwitchSurvives(ws[i].db.adverts, ws[j].db.adverts, id);
    }
  }

  /** What a published slot serves changes at most once: from the publish advert to the switched identity advert. */
  lemma ServingChangesAtMostOnce(cfg: Config, ws: seq<World>, i: nat, j: nat, k: nat, id: PublicationId,
                                 a: AdvertKey, b: AdvertKey, c: AdvertKey)
    requires ConfigOk(cfg) && AppendRun(cfg, ws) && i <= j <= k < |ws| && IsPublished(ws[i].db, id)
    requires S.JournalOk(ws[i].db) && ServedBy(ws[i], id, a)
    requires S.JournalOk(ws[j].db) && ServedBy(ws[j], id, b)
    requires S.JournalOk(ws[k].db) && ServedBy(ws[k], id, c)
    requires a != b
    ensures a == AdvertKey(id, 1) && c == b
    ensures SwitchedTo(ws[j].db.adverts, b) && ws[j].db.adverts[b].signed.layout == Identity
  {
    hide AppendRun, ConfigOk, Settles, Inv, ServiceOk, HasSwitched, SwitchedTo, IsPublished, ServedBy, S.JournalOk;
    AppendRunSettles(cfg, ws, i);
    AppendRunSettles(cfg, ws, j);
    AppendRunSettles(cfg, ws, k);
    SwitchPersists(cfg, ws, i, j, id, a);
    SwitchPersists(cfg, ws, j, k, id, b);
    ServedIsSwitchedOrPublish(cfg, ws[i], id, a);
    ServedIsSwitchedOrPublish(cfg, ws[j], id, b);
    ServedIsSwitchedOrPublish(cfg, ws[k], id, c);
    SettlesMeansInv(cfg, ws[j]);
    SettlesMeansInv(cfg, ws[k]);
    if HasSwitched(ws[i].db.adverts, id) {
      SwitchedIsUnique(cfg, ws[j].db, a, b);
    }
    SwitchedIsUnique(cfg, ws[k].db, b, c);
    SwitchedIsIdentity(cfg, ws[j].db, b);
  }

  lemma SwitchedIsIdentity(cfg: Config, db: Db, key: AdvertKey)
    requires ServiceOk(cfg, db) && SwitchedTo(db.adverts, key)
    ensures db.adverts[key].signed.layout == Identity
  {
    hide ServiceOk;
    AdvertRowFacts(cfg, db, key);
  }

  /**
   A retirement is signed only for the legacy advert of a published slot that
   serves another, switched advert from then on, also under rollbacks.
   */
  lemma RetirementFollowsSwitch(cfg: Config, ws: seq<World>, i: nat, j: nat, tx: Tx)
    requires ConfigOk(cfg) && Run(cfg, ws) && i <= j < |ws| && tx in ws[i].db.retirements
    ensures var key := ws[i].db.retirements[tx].signed.key;
      && key in ws[i].db.adverts && ws[i].db.adverts[key].signed.layout == Legacy
      && IsPublished(ws[j].db, key.publication)
      && exists g: nat :: SwitchedTo(ws[j].db.adverts, AdvertKey(key.publication, g)) && AdvertKey(key.publication, g) != key
  {
    hide Run, ConfigOk, Inv, ServiceOk, Kept, SwitchedTo, IsPublished;
    RunKeeps(cfg, ws, i);
    RunKeeps(cfg, ws, j);
    RunIsForward(cfg, ws, i, j);
    InvMeansService(cfg, ws[i]);
    InvMeansService(cfg, ws[j]);
    var key := ws[i].db.retirements[tx].signed.key;
    RetirementNamesKey(ws[i].db, tx);
    RetirementIsLegacy(cfg, ws[i].db, key);
    var g: nat :| SwitchedTo(ws[i].db.adverts, AdvertKey(key.publication, g));
    assert SwitchedTo(ws[j].db.adverts, AdvertKey(key.publication, g));
    SwitchedIsIdentity(cfg, ws[i].db, AdvertKey(key.publication, g));
  }

  lemma InvMeansService(cfg: Config, w: World)
    requires Inv(cfg, w)
    ensures ServiceOk(cfg, w.db)
  {
  }
}

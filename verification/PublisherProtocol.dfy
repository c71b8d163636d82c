/**
 The publisher as a step system over its journal, the chain it reads, the
 transactions it has submitted and its supplier processes. A step is one atomic
 piece of a service operation (at most one database transaction or one submission),
 a move of the chain, or a crash with boot recovery. A submission sends what the
 operation holds; that this was journaled is a theorem.

 `history` holds every chain the node has adopted; an operation's chain read can
 have seen any of them since it began, one snapshot per read.
 */
module PublisherProtocol {
  import opened Prelude
  import opened Ledger
  import opened PublisherTables
  import C = AdvertCheck
  import S = PublisherStore
  import opened PublisherService

  /**
   A publication's lock is held for publishing or for reading its outcome. The
   posting flow keeps the transaction it built while the hook journals it.
   */
  datatype PublishOp =
    | Signing(maxDebit: nat)
    | Submitting(tx: Tx)
    | Awaiting(tx: Tx)
    | Resolving(from: nat, phase: Phase, confirmed: bool)
    | Recording(phase: Phase, to: Option<Phase>)

  /** A slot's adverts lock is held for one of these; `key` names the advert concerned. */
  datatype AdvertOp =
    | Readverting(key: AdvertKey, agent: AgentId, maxDebit: nat)
    | SubmittingReadvert(key: AdvertKey, tx: Tx)
    | AwaitingReadvert(key: AdvertKey, tx: Tx)
    | ReadingReadvert(key: AdvertKey, from: nat)
    | Switching(key: AdvertKey, from: nat)
    | Settling(key: AdvertKey, from: nat)
    | Settled(key: AdvertKey, from: nat)
    | ReadyToRetire(key: AdvertKey, maxDebit: nat)
    | SubmittingRetirement(key: AdvertKey, tx: Tx)
    | AwaitingRetirement(key: AdvertKey, tx: Tx)

  /** A slot's supplier is being started. */
  datatype StartOp = Starting(id: PublicationId, key: AdvertKey, from: nat) | Started(id: PublicationId, key: AdvertKey)

  datatype World = World(
    db: Db, history: seq<ChainState>, sent: set<Tx>,
    publishOps: map<PublicationId, PublishOp>, advertOps: map<TargetId, AdvertOp>,
    startOps: map<TargetId, StartOp>, children: map<TargetId, AdvertKey>)

  datatype PublishMove =
    | Prepares(n: S.NewPublication)
    | PrepareEnds(image: Option<nat>)
    | ImageRebuilt(rebuilt: nat)
    | PublishBegins(maxDebit: nat)
    | PublishSigns(agent: Option<AgentId>, built: C.Built, visible: OutRef -> bool)
    | PublishSubmits
    | PublishConfirms(i: nat)
    | PublishFails
    | ResolveBegins
    | ResolveReads(i: nat)
    | ResolveRecords

  datatype AdvertMove =
    | ReadvertBegins(id: PublicationId, agent: AgentId, maxDebit: nat)
    | ReadvertSigns(built: C.Built, visible: OutRef -> bool)
    | ReadvertSubmits
    | ReadvertConfirms(i: nat)
    | ReadvertReads(key: AdvertKey)
    | ReadvertResolves(i: nat)
    | SwitchReads(key: AdvertKey)
    | SwitchEnds(i: nat)
    | SettleReads(key: AdvertKey)
    | SettleEnds(i: nat, retiredBy: Option<Tx>)
    | RetireAdmits(key: AdvertKey, i: nat, maxDebit: nat)
    | RetireSigns(built: C.Built, visible: OutRef -> bool)
    | RetireResends(tx: Tx)
    | RetireSubmits
    | RetireConfirms(i: nat)
    | AdvertOpEnds

  datatype StartMove =
    | StartBegins(id: PublicationId)
    | StartConfirms(i: nat)
    | StartEnds
    | StartFails
    | ChildStops

  datatype Step =
    | Publish(id: PublicationId, p: PublishMove, at: Time)
    | Adverts(target: TargetId, a: AdvertMove, at: Time)
    | Start(target: TargetId, s: StartMove, at: Time)
    | ChainMoves(move: ChainMove, next: ChainState)
    | Crashes(at: Time)

  function Current(w: World): ChainState
    requires w.history != []
  {
    w.history[|w.history| - 1]
  }

  predicate InSlot(db: Db, key: AdvertKey, target: TargetId) {
    key in db.adverts && db.adverts[key].signed.target == target
  }

  predicate IsJournaled(db: Db, tx: Tx) {
    (exists k :: k in db.adverts && db.adverts[k].signed.tx == tx) || tx in db.retirements
  }

  predicate HasRetirement(db: Db, key: AdvertKey) {
    exists t :: t in db.retirements && db.retirements[t].signed.key == key
  }

  predicate Between(w: World, from: nat, i: nat) {
    from <= i < |w.history|
  }

  function Last(w: World): nat
    requires w.history != []
  {
    |w.history| - 1
  }

  /** The read of chain `i` shows the advert's output as unspent. */
  predicate Sees(w: World, i: nat, key: AdvertKey) {
    key in w.db.adverts && i < |w.history| && Unspent(w.history[i].entries, w.db.adverts[key].signed.advertRef)
  }

  function PreparePatch(image: Option<nat>, at: Time): S.Patch {
    if image.Some? then S.Patch(Some(Prepared), image, Some(at), None) else ToPhase(Failed)
  }

  /** The same offer once more, now naming the agent. */
  function ReadvertDatum(publish: Datum, agent: AgentId): Datum
    requires publish.AdvertDatum?
  {
    AdvertDatum(publish.offer.(active := true), 0, Some(agent))
  }

  /** The check accepts the built transaction for this approval. */
  predicate Approved(slot: C.Slot, expected: Datum, built: C.Built, visible: OutRef -> bool, maxDebit: nat) {
    && expected.AdvertDatum? && C.PostsAdvert(slot, expected, built, visible) && C.AdvertDebit(built.tx) >= 0
    && C.Exposure(C.AdvertDebit(built.tx), C.Collateral(built.tx)) <= maxDebit
  }

  predicate RetirementApproved(slot: C.Slot, ref: OutRef, built: C.Built, visible: OutRef -> bool, maxDebit: nat) {
    && C.RetiresAdvert(slot, ref, built, visible)
    && C.Exposure(C.RetireDebit(built.tx, ref), C.Collateral(built.tx)) <= maxDebit
  }

  /** Preparation, the approved publish transaction, and the reading of its outcome. */
  ghost predicate PublishStep(cfg: Config, w: World, id: PublicationId, m: PublishMove, at: Time, w': World)
    requires w.history != []
  {
    match m
    case Prepares(n) =>
      var done := if id in w.db.publications then S.Retry(w.db, id, n, at) else S.Create(w.db, id, n, at);
      id !in w.publishOps && n.target in cfg.slots && done.Ok? && w' == w.(db := done.value)
    case PrepareEnds(image) =>
      var done := S.Update(w.db, id, {Preparing}, PreparePatch(image, at), at);
      done.Ok? && w' == w.(db := done.value)
    case ImageRebuilt(rebuilt) =>
      id in w.db.publications &&
      w' == w.(db := OrSame(w.db, S.Update(w.db, id, {w.db.publications[id].phase}, S.Patch(None, Some(rebuilt), None, None), at)))
    case PublishBegins(maxDebit) =>
      var done := S.Update(w.db, id, {Prepared}, ToPhase(Publishing), at);
      id !in w.publishOps && done.Ok? && w' == w.(db := done.value, publishOps := w.publishOps[id := Signing(maxDebit)])
    case PublishSigns(agent, built, visible) =>
      && id in w.publishOps && w.publishOps[id].Signing? && id in w.db.publications
      && w.db.publications[id].target in cfg.slots
      && var slot, maxDebit := cfg.slots[w.db.publications[id].target], w.publishOps[id].maxDebit;
         var expected := AdvertDatum(PublishOffer(slot, w.db.publications[id]), 0, agent);
         && Approved(slot, expected, built, visible, maxDebit)
         && var done := S.Journal(w.db, C.SignedFrom(id, slot, expected, built.tx, maxDebit, at), at);
            done.Ok? && w' == w.(db := done.value, publishOps := w.publishOps[id := Submitting(built.tx)])
    case PublishSubmits =>
      && id in w.publishOps && w.publishOps[id].Submitting?
      && w' == w.(sent := w.sent + {w.publishOps[id].tx}, publishOps := w.publishOps[id := Awaiting(w.publishOps[id].tx)])
    case PublishConfirms(i) =>
      && id in w.publishOps && w.publishOps[id].Awaiting? && i < |w.history| && Included(w.history[i], w.publishOps[id].tx)
      && w' == w.(db := S.ConfirmAdvert(w.db, AdvertKey(id, 1), at), publishOps := w.publishOps - {id})
    case PublishFails =>
      && id in w.publishOps && (w.publishOps[id].Signing? || w.publishOps[id].Submitting? || w.publishOps[id].Awaiting?)
      && var phase := if AdvertKey(id, 1) in w.db.adverts then ConfirmationPending else Prepared;
         w' == w.(db := OrSame(w.db, S.Update(w.db, id, {Publishing}, ToPhase(phase), at)), publishOps := w.publishOps - {id})
    case ResolveBegins =>
      && id !in w.publishOps && id in w.db.publications
      && (w.db.publications[id].phase == Publishing || w.db.publications[id].phase == ConfirmationPending)
      && w' == w.(publishOps := w.publishOps[id := Resolving(Last(w), w.db.publications[id].phase, PublishConfirmed(w.db, id))])
    case ResolveReads(i) =>
      && id in w.publishOps && w.publishOps[id].Resolving? && Between(w, w.publishOps[id].from, i)
      && var done := RecordEvidence(w.db, id, w.publishOps[id].confirmed, w.history[i], at);
         w' == w.(db := done.0, publishOps := w.publishOps[id := Recording(w.publishOps[id].phase, done.1)])
    case ResolveRecords =>
      && id in w.publishOps && w.publishOps[id].Recording?
      && w' == w.(db := RecordPhase(w.db, id, w.publishOps[id].phase, w.publishOps[id].to, at), publishOps := w.publishOps - {id})
  }

  /** Re-advertisement, the switch, and the retirement of the legacy advert. */
  ghost predicate AdvertStep(cfg: Config, w: World, target: TargetId, m: AdvertMove, at: Time, w': World)
    requires w.history != [] && S.JournalOk(w.db)
  {
    match m
    case ReadvertBegins(id, agent, maxDebit) =>
      && IsPublished(w.db, id) && w.db.publications[id].target == target && target in cfg.slots && target !in w.advertOps
      && AdvertKey(id, 1) in w.db.adverts && S.LiveIdentityAdvert(S.Adverts(w.db, id)).None?
      && w' == w.(advertOps := w.advertOps[target := Readverting(AdvertKey(id, 1), agent, maxDebit)])
    case ReadvertSigns(built, visible) =>
      && target in w.advertOps && w.advertOps[target].Readverting? && w.advertOps[target].key in w.db.adverts
      && var key, agent, maxDebit := w.advertOps[target].key, w.advertOps[target].agent, w.advertOps[target].maxDebit;
         var publish := w.db.adverts[key].signed;
         && publish.target in cfg.slots && publish.datum.AdvertDatum?
         && var slot, expected := cfg.slots[publish.target], ReadvertDatum(publish.datum, agent);
            && Approved(slot, expected, built, visible, maxDebit)
            && var done := S.JournalReadvert(w.db, C.SignedFrom(key.publication, slot, expected, built.tx, maxDebit, at));
               && done.Ok?
               && w' == w.(db := done.value, advertOps := w.advertOps[target :=
                    SubmittingReadvert(AdvertKey(key.publication, S.NextGeneration(w.db, key.publication)), built.tx)])
    case ReadvertSubmits =>
      && target in w.advertOps && w.advertOps[target].SubmittingReadvert?
      && var op := w.advertOps[target];
         w' == w.(sent := w.sent + {op.tx}, advertOps := w.advertOps[target := AwaitingReadvert(op.key, op.tx)])
    case ReadvertConfirms(i) =>
      && target in w.advertOps && w.advertOps[target].AwaitingReadvert?
      && i < |w.history| && Included(w.history[i], w.advertOps[target].tx)
      && w' == w.(db := S.ConfirmAdvert(w.db, w.advertOps[target].key, at), advertOps := w.advertOps - {target})
    case ReadvertReads(key) =>
      && InSlot(w.db, key, target) && target !in w.advertOps && key.generation >= 2
      && Live(w.db.adverts[key]) && w.db.adverts[key].confirmedAt.None?
      && w' == w.(advertOps := w.advertOps[target := ReadingReadvert(key, Last(w))])
    case ReadvertResolves(i) =>
      && target in w.advertOps && w.advertOps[target].ReadingReadvert? && Between(w, w.advertOps[target].from, i)
      && w' == w.(db := ResolveReadvert(w.db, w.advertOps[target].key, w.history[i], at), advertOps := w.advertOps - {target})
    case SwitchReads(key) =>
      && InSlot(w.db, key, target) && target !in w.advertOps && IsPublished(w.db, key.publication)
      && w.db.adverts[key].signed.layout == Identity && Live(w.db.adverts[key])
      && w.db.adverts[key].confirmedAt.Some? && w.db.adverts[key].switchedAt.None?
      && w' == w.(advertOps := w.advertOps[target := Switching(key, Last(w))])
    case SwitchEnds(i) =>
      && target in w.advertOps && w.advertOps[target].Switching? && Between(w, w.advertOps[target].from, i)
      && Sees(w, i, w.advertOps[target].key)
      && w' == w.(db := OrSame(w.db, S.SwitchAdvert(w.db, w.advertOps[target].key, at)), advertOps := w.advertOps - {target})
    case SettleReads(key) =>
      && InSlot(w.db, key, target) && target !in w.advertOps && Live(w.db.adverts[key])
      && ((w.db.adverts[key].signed.layout == Legacy && IsPublished(w.db, key.publication)) || HasRetirement(w.db, key))
      && w' == w.(advertOps := w.advertOps[target := Settling(key, Last(w))])
    case SettleEnds(i, retiredBy) =>
      && target in w.advertOps && w.advertOps[target].Settling? && Between(w, w.advertOps[target].from, i)
      && (retiredBy.Some? ==> Unspent(w.history[i].entries, OutRef(retiredBy.value, 0)))
      && var key := w.advertOps[target].key;
         w' == w.(db := Settle(w.db, key, w.history[i], retiredBy, at),
                  advertOps := if Sees(w, i, key) then w.advertOps[target := Settled(key, i)] else w.advertOps - {target})
    case RetireAdmits(key, i, maxDebit) =>
      && target in w.advertOps && w.advertOps[target].Settled? && Between(w, w.advertOps[target].from, i)
      && IsPublished(w.db, key.publication) && key.publication == w.advertOps[target].key.publication
      && SwitchedTo(w.db.adverts, key) && w.db.adverts[key].signed.layout == Identity
      && target in w.children && w.children[target] == key && Sees(w, i, key)
      && w' == w.(advertOps := w.advertOps[target := ReadyToRetire(w.advertOps[target].key, maxDebit)])
    case RetireSigns(built, visible) =>
      && target in w.advertOps && w.advertOps[target].ReadyToRetire? && w.advertOps[target].key in w.db.adverts
      && var key, maxDebit := w.advertOps[target].key, w.advertOps[target].maxDebit;
         var advert := w.db.adverts[key].signed;
         && advert.target in cfg.slots && RetirementApproved(cfg.slots[advert.target], advert.advertRef, built, visible, maxDebit)
         && var done := S.JournalRetirement(w.db, C.RetirementFrom(key, advert.advertRef, built.tx, maxDebit, at));
            done.Ok? && w' == w.(db := done.value, advertOps := w.advertOps[target := SubmittingRetirement(key, built.tx)])
    case RetireResends(tx) =>
      && target in w.advertOps && w.advertOps[target].ReadyToRetire?
      && tx in w.db.retirements && w.db.retirements[tx].signed.key == w.advertOps[target].key && w.db.retirements[tx].confirmedAt.None?
      && w' == w.(advertOps := w.advertOps[target := SubmittingRetirement(w.advertOps[target].key, w.db.retirements[tx].signed.tx)])
    case RetireSubmits =>
      && target in w.advertOps && w.advertOps[target].SubmittingRetirement?
      && var op := w.advertOps[target];
         w' == w.(sent := w.sent + {op.tx}, advertOps := w.advertOps[target := AwaitingRetirement(op.key, op.tx)])
    case RetireConfirms(i) =>
      && target in w.advertOps && w.advertOps[target].AwaitingRetirement?
      && i < |w.history| && Included(w.history[i], w.advertOps[target].tx)
      && w' == w.(db := S.RetireAdvert(w.db, w.advertOps[target].key, Some(w.advertOps[target].tx), at),
                  advertOps := w.advertOps - {target})
    case AdvertOpEnds => w' == w.(advertOps := w.advertOps - {target})
  }

  /** Supplier starts: the advert to serve is read on chain, confirmed and then served. */
  ghost predicate StartStep(w: World, target: TargetId, m: StartMove, at: Time, w': World)
    requires w.history != [] && S.JournalOk(w.db)
  {
    match m
    case StartBegins(id) =>
      && id in w.db.publications && w.db.publications[id].target == target && target !in w.startOps
      && (w.db.publications[id].phase == Published || w.db.publications[id].phase == Publishing)
      && S.ServingAdvert(S.Adverts(w.db, id)).Some?
      && w' == w.(startOps := w.startOps[target := Starting(id, KeyOf(S.ServingAdvert(S.Adverts(w.db, id)).value), Last(w))])
    case StartConfirms(i) =>
      && target in w.startOps && w.startOps[target].Starting? && Between(w, w.startOps[target].from, i)
      && Sees(w, i, w.startOps[target].key)
      && w' == w.(db := S.ConfirmAdvert(w.db, w.startOps[target].key, at),
                  startOps := w.startOps[target := Started(w.startOps[target].id, w.startOps[target].key)])
    case StartEnds =>
      && target in w.startOps && w.startOps[target].Started? && w.startOps[target].id in w.db.publications
      && w' == w.(db := FinishStart(w.db, w.startOps[target].id, at), startOps := w.startOps - {target},
                  children := w.children[target := w.startOps[target].key])
    case StartFails => w' == w.(startOps := w.startOps - {target})
    case ChildStops => w' == w.(children := w.children - {target})
  }

  function Crashed(w: World, at: Time): World {
    w.(db := S.Recover(w.db, at), publishOps := map[], advertOps := map[], startOps := map[], children := map[])
  }

  ghost predicate Next(cfg: Config, w: World, step: Step, w': World)
    requires w.history != [] && S.JournalOk(w.db)
  {
    match step
    case Publish(id, p, at) => PublishStep(cfg, w, id, p, at, w')
    case Adverts(target, a, at) => AdvertStep(cfg, w, target, a, at, w')
    case Start(target, s, at) => StartStep(w, target, s, at, w')
    case ChainMoves(move, next) => ChainStep(Current(w), move, next) && w' == w.(history := w.history + [next])
    case Crashes(at) => w' == Crashed(w, at)
  }

  ghost predicate Initial(w: World) {
    && w.db == S.NO_TABLES && |w.history| == 1 && ValidChain(w.history[0]) && w.sent == {}
    && w.publishOps == map[] && w.advertOps == map[] && w.startOps == map[] && w.children == map[]
  }
}

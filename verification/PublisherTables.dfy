/**
 The publisher's durable tables and the guards that the database schema puts on
 every write: primary keys, unique indexes, checks, foreign keys and triggers.
 A write that a guard refuses changes nothing.
 */
module PublisherTables {
  import opened Prelude
  import opened Ledger

  type PublicationId = nat
  type TargetId = nat
  type Time = int

  datatype Phase = Preparing | Prepared | Publishing | ConfirmationPending | Published | Failed

  datatype Layout = Legacy | Identity

  datatype EndReason = Expired | Retired

  datatype Terms = Terms(target: TargetId, artifactSha256: nat, price: nat, buyerBond: nat, supplierBond: nat)

  datatype Artifact = Artifact(sha256: nat, manifestHash: nat, model: Text, maxRuntimeMs: nat)

  datatype Publication = Publication(
    target: TargetId, phase: Phase, requestHash: nat, terms: Terms, artifact: Artifact, workDir: nat,
    runtimeImage: Option<nat>, supplierPkh: nat, endpointUrl: Text,
    advertRef: Option<OutRef>, tx: Option<Tx>, actualDebit: Option<int>,
    preparedAt: Option<Time>, publishedAt: Option<Time>, updatedAt: Time)

  datatype WalletInput = WalletInput(ref: OutRef, lovelace: nat)

  /** A checked, signed advert transaction; the store assigns its generation. */
  datatype SignedAdvert = SignedAdvert(
    publication: PublicationId, layout: Layout, target: TargetId, tx: Tx, advertRef: OutRef,
    advertAddress: Address, datum: Datum, walletInputs: seq<WalletInput>, fee: nat,
    walletDebit: int, maxDebit: int, validUntil: Option<Slot>, signedAt: Time)

  datatype Advert = Advert(
    signed: SignedAdvert, generation: nat, confirmedAt: Option<Time>, switchedAt: Option<Time>,
    endedAt: Option<Time>, endReason: Option<EndReason>)

  datatype AdvertKey = AdvertKey(publication: PublicationId, generation: nat)

  /** One checked, signed attempt to retire a journaled advert. */
  datatype SignedRetirement = SignedRetirement(
    tx: Tx, key: AdvertKey, walletInputs: seq<WalletInput>, fee: nat, walletDebit: int, maxDebit: int,
    validUntil: Option<Slot>, signedAt: Time)

  datatype Retirement = Retirement(signed: SignedRetirement, confirmedAt: Option<Time>)

  datatype Db = Db(
    publications: map<PublicationId, Publication>,
    adverts: map<AdvertKey, Advert>,
    retirements: map<Tx, Retirement>)

  function KeyOf(row: Advert): AdvertKey {
    AdvertKey(row.signed.publication, row.generation)
  }

  predicate Live(row: Advert) {
    row.endedAt.None?
  }

  /** The partial index covers this row: it blocks its slot for others. */
  predicate HoldsSlot(row: Publication) {
    row.phase != Failed || row.tx.Some?
  }

  datatype Write =
    | InsertPublication(id: PublicationId, publication: Publication)
    | UpdatePublication(id: PublicationId, publication: Publication)
    | DeletePublication(id: PublicationId)
    | InsertAdvert(advert: Advert)
    | UpdateAdvert(key: AdvertKey, advert: Advert)
    | DeleteAdvert(key: AdvertKey)
    | InsertRetirement(retirement: Retirement)
    | UpdateRetirement(tx: Tx, retirement: Retirement)
    | DeleteRetirement(tx: Tx)

  predicate SlotFree(db: Db, id: PublicationId, row: Publication) {
    HoldsSlot(row) ==>
      forall other | other in db.publications ::
        other != id && HoldsSlot(db.publications[other]) ==> db.publications[other].target != row.target
  }

  predicate LayoutFree(db: Db, key: AdvertKey, row: Advert) {
    Live(row) ==>
      forall other | other in db.adverts ::
        other != key && Live(db.adverts[other]) && db.adverts[other].signed.target == row.signed.target
        ==> db.adverts[other].signed.layout != row.signed.layout
  }

  predicate TxFresh(db: Db, key: AdvertKey, row: Advert) {
    forall other | other in db.adverts :: other != key ==> db.adverts[other].signed.tx != row.signed.tx
  }

  predicate AdvertChecks(row: Advert) {
    && row.generation >= 1
    && (row.endedAt.None? <==> row.endReason.None?)
    && (row.switchedAt.Some? ==> row.confirmedAt.Some?)
  }

  /** A column that is written at most once. */
  predicate SetOnce<T(==)>(was: Option<T>, now: Option<T>) {
    was.Some? ==> now == was
  }

  predicate AdvertKept(row: Advert, row': Advert) {
    && row'.signed == row.signed && row'.generation == row.generation
    && SetOnce(row.confirmedAt, row'.confirmedAt)
    && SetOnce(row.switchedAt, row'.switchedAt)
    && (row.endedAt.Some? ==> row'.endedAt == row.endedAt && row'.endReason == row.endReason)
  }

  predicate RetirementKept(row: Retirement, row': Retirement) {
    row'.signed == row.signed && SetOnce(row.confirmedAt, row'.confirmedAt)
  }

  /** The trigger on a publication that has signed a transaction. */
  predicate SignedFinal(row: Publication, row': Publication) {
    row.tx.Some? ==>
      && row'.tx == row.tx && row'.phase != Preparing && row'.phase != Prepared
      && row'.requestHash == row.requestHash && row'.target == row.target
  }

  /** A signed publication is untouched, or it changed without becoming publishable again. */
  predicate PublicationKept(row: Publication, row': Publication) {
    row' == row || SignedFinal(row, row')
  }

  predicate InputsFixed(row: Publication, row': Publication) {
    row.phase != Failed ==>
      && row'.requestHash == row.requestHash && row'.target == row.target && row'.terms == row.terms
      && row'.artifact == row.artifact && row'.workDir == row.workDir
  }

  /** The schema lets the write through. */
  predicate Accepts(db: Db, w: Write) {
    match w
    case InsertPublication(id, row) => id !in db.publications && SlotFree(db, id, row)
    case UpdatePublication(id, row) =>
      && id in db.publications && SlotFree(db, id, row)
      && SignedFinal(db.publications[id], row) && InputsFixed(db.publications[id], row)
    case InsertAdvert(row) =>
      && KeyOf(row) !in db.adverts && AdvertChecks(row)
      && row.signed.publication in db.publications
      && db.publications[row.signed.publication].target == row.signed.target
      && TxFresh(db, KeyOf(row), row) && LayoutFree(db, KeyOf(row), row)
    case UpdateAdvert(key, row) =>
      && key in db.adverts && AdvertChecks(row) && AdvertKept(db.adverts[key], row)
      && LayoutFree(db, key, row)
    case InsertRetirement(row) =>
      && row.signed.tx !in db.retirements && row.signed.key in db.adverts && Live(db.adverts[row.signed.key])
    case UpdateRetirement(tx, row) => tx in db.retirements && RetirementKept(db.retirements[tx], row)
    case DeletePublication(_) => false
    case DeleteAdvert(_) => false
    case DeleteRetirement(_) => false
  }

  function Perform(db: Db, w: Write): Db
    requires Accepts(db, w)
  {
    match w
    case InsertPublication(id, row) => db.(publications := db.publications[id := row])
    case UpdatePublication(id, row) => db.(publications := db.publications[id := row])
    case InsertAdvert(row) => db.(adverts := db.adverts[KeyOf(row) := row])
    case UpdateAdvert(key, row) => db.(adverts := db.adverts[key := row])
    case InsertRetirement(row) => db.(retirements := db.retirements[row.signed.tx := row])
    case UpdateRetirement(tx, row) => db.(retirements := db.retirements[tx := row])
  }

  ghost predicate SlotIndexOk(publications: map<PublicationId, Publication>) {
    forall a, b :: a in publications && b in publications && a != b
      && HoldsSlot(publications[a]) && HoldsSlot(publications[b])
      ==> publications[a].target != publications[b].target
  }

  ghost predicate AdvertRowsOk(db: Db) {
    forall k :: k in db.adverts ==>
      KeyOf(db.adverts[k]) == k && AdvertChecks(db.adverts[k]) && k.publication in db.publications
  }

  ghost predicate TxIndexOk(adverts: map<AdvertKey, Advert>) {
    forall j, k :: j in adverts && k in adverts && j != k ==> adverts[j].signed.tx != adverts[k].signed.tx
  }

  ghost predicate LiveIndexOk(adverts: map<AdvertKey, Advert>) {
    forall j, k :: j in adverts && k in adverts && j != k && Live(adverts[j]) && Live(adverts[k])
      && adverts[j].signed.target == adverts[k].signed.target
      ==> adverts[j].signed.layout != adverts[k].signed.layout
  }

  ghost predicate RetirementRowsOk(db: Db) {
    forall t :: t in db.retirements ==> db.retirements[t].signed.tx == t && db.retirements[t].signed.key in db.adverts
  }

  /** What the indexes, checks and foreign keys say about every stored state. */
  ghost predicate SchemaOk(db: Db) {
    && SlotIndexOk(db.publications) && AdvertRowsOk(db) && TxIndexOk(db.adverts)
    && LiveIndexOk(db.adverts) && RetirementRowsOk(db)
  }

  ghost predicate PublicationsKept(m: map<PublicationId, Publication>, m': map<PublicationId, Publication>) {
    forall id :: id in m ==> id in m' && PublicationKept(m[id], m'[id])
  }

  ghost predicate AdvertsKept(m: map<AdvertKey, Advert>, m': map<AdvertKey, Advert>) {
    forall k :: k in m ==> k in m' && AdvertKept(m[k], m'[k])
  }

  ghost predicate RetirementsKept(m: map<Tx, Retirement>, m': map<Tx, Retirement>) {
    forall t :: t in m ==> t in m' && RetirementKept(m[t], m'[t])
  }

  /** Nothing that moves money is ever rewritten, dropped or made signable again. */
  ghost predicate Kept(db: Db, db': Db) {
    && PublicationsKept(db.publications, db'.publications)
    && AdvertsKept(db.adverts, db'.adverts)
    && RetirementsKept(db.retirements, db'.retirements)
  }

  lemma KeptReflexive(db: Db)
    ensures Kept(db, db)
  {
  }

  lemma KeptTransitive(a: Db, b: Db, c: Db)
    requires Kept(a, b) && Kept(b, c)
    ensures Kept(a, c)
  {
    assert PublicationsKept(a.publications, c.publications);
    assert AdvertsKept(a.adverts, c.adverts);
    assert RetirementsKept(a.retirements, c.retirements);
  }

  lemma PublicationWriteKeeps(db: Db, id: PublicationId, row: Publication)
    requires SchemaOk(db) && SlotFree(db, id, row)
    requires id in db.publications ==> SignedFinal(db.publications[id], row)
    ensures var db' := db.(publications := db.publications[id := row]); SchemaOk(db') && Kept(db, db')
  {
    hide TxIndexOk, LiveIndexOk, AdvertChecks, AdvertKept, RetirementKept;
    var db' := db.(publications := db.publications[id := row]);
    assert SlotIndexOk(db'.publications) by { hide AdvertRowsOk, RetirementRowsOk; }
    KeptReflexive(db);
    assert AdvertRowsOk(db') && RetirementRowsOk(db') by { hide SlotIndexOk; }
  }

  /** Row checks and references after an advert row is written. */
  lemma AdvertRowsStay(db: Db, key: AdvertKey, row: Advert)
    requires AdvertRowsOk(db) && RetirementRowsOk(db)
    requires KeyOf(row) == key && AdvertChecks(row) && key.publication in db.publications
    ensures var db' := db.(adverts := db.adverts[key := row]); AdvertRowsOk(db') && RetirementRowsOk(db')
  {
    hide AdvertChecks;
  }

  lemma TxIndexStays(adverts: map<AdvertKey, Advert>, key: AdvertKey, row: Advert)
    requires TxIndexOk(adverts)
    requires forall other :: other in adverts && other != key ==> adverts[other].signed.tx != row.signed.tx
    ensures TxIndexOk(adverts[key := row])
  {
  }

  lemma LiveIndexStays(db: Db, key: AdvertKey, row: Advert)
    requires LiveIndexOk(db.adverts) && LayoutFree(db, key, row)
    ensures LiveIndexOk(db.adverts[key := row])
  {
  }

  lemma AdvertInsertKeeps(db: Db, row: Advert)
    requires SchemaOk(db) && Accepts(db, InsertAdvert(row))
    ensures var db' := db.(adverts := db.adverts[KeyOf(row) := row]); SchemaOk(db') && Kept(db, db')
  {
    hide SlotIndexOk, TxIndexOk, LiveIndexOk, AdvertRowsOk, RetirementRowsOk, AdvertChecks, LayoutFree, PublicationKept, RetirementKept;
    AdvertRowsStay(db, KeyOf(row), row);
    TxIndexStays(db.adverts, KeyOf(row), row);
    LiveIndexStays(db, KeyOf(row), row);
    KeptReflexive(db);
  }

  lemma AdvertUpdateKeeps(db: Db, key: AdvertKey, row: Advert)
    requires SchemaOk(db) && Accepts(db, UpdateAdvert(key, row))
    ensures var db' := db.(adverts := db.adverts[key := row]); SchemaOk(db') && Kept(db, db')
  {
    hide SlotIndexOk, TxIndexOk, LiveIndexOk, RetirementRowsOk, AdvertChecks, LayoutFree, PublicationKept, RetirementKept;
    AdvertRowsStay(db, key, row);
    assert TxIndexOk(db.adverts[key := row]) by { SameTxIndex(db.adverts, key, row); }
    LiveIndexStays(db, key, row);
    KeptReflexive(db);
  }

  lemma SameTxIndex(adverts: map<AdvertKey, Advert>, key: AdvertKey, row: Advert)
    requires TxIndexOk(adverts) && key in adverts && row.signed == adverts[key].signed
    ensures TxIndexOk(adverts[key := row])
  {
  }

  lemma RetirementWriteKeeps(db: Db, tx: Tx, row: Retirement)
    requires SchemaOk(db) && row.signed.tx == tx && row.signed.key in db.adverts
    requires tx in db.retirements ==> RetirementKept(db.retirements[tx], row)
    ensures var db' := db.(retirements := db.retirements[tx := row]); SchemaOk(db') && Kept(db, db')
  {
    hide SlotIndexOk, TxIndexOk, LiveIndexOk, AdvertChecks, PublicationKept, AdvertKept;
    KeptReflexive(db);
    var db' := db.(retirements := db.retirements[tx := row]);
    assert AdvertRowsOk(db') && RetirementRowsOk(db');
  }

  /** One write as a program sees it: a refused write has no effect. */
  function Attempt(db: Db, w: Write): Db {
    if Accepts(db, w) then Perform(db, w) else db
  }

  lemma AttemptKeepsSchema(db: Db, w: Write)
    requires SchemaOk(db)
    ensures SchemaOk(Attempt(db, w)) && Kept(db, Attempt(db, w))
  {
    if Accepts(db, w) {
      match w
      case InsertPublication(id, row) => PublicationWriteKeeps(db, id, row);
      case UpdatePublication(id, row) => PublicationWriteKeeps(db, id, row);
      case InsertAdvert(row) => AdvertInsertKeeps(db, row);
      case UpdateAdvert(key, row) => AdvertUpdateKeeps(db, key, row);
      case InsertRetirement(row) => RetirementWriteKeeps(db, row.signed.tx, row);
      case UpdateRetirement(tx, row) => RetirementWriteKeeps(db, tx, row);
    }
  }

  /** Any program at all, with whatever inserts, updates and deletes it likes. */
  function RunWrites(db: Db, writes: seq<Write>): Db
    decreases |writes|
  {
    if writes == [] then db else RunWrites(Attempt(db, writes[0]), writes[1..])
  }

  /**
   What no program at all can do through this schema: bring two publications that
   hold a slot, or two live adverts of one layout, into one slot; journal one
   transaction twice; drop or re-sign an advert or an attempt, take back a
   confirmation, a switch or an end, or switch an unconfirmed advert; unsign a
   publication or make a signed one publishable again.
   */
  lemma SchemaProtectsMoney(db: Db, writes: seq<Write>, now: Db)
    requires SchemaOk(db) && now == RunWrites(db, writes)
    ensures SchemaOk(now) && Kept(db, now)
    ensures forall a, b :: a in now.publications && b in now.publications && a != b ==>
      var p, q := now.publications[a], now.publications[b];
      p.target != q.target || (p.phase == Failed && p.tx.None?) || (q.phase == Failed && q.tx.None?)
    ensures forall j, k :: j in now.adverts && k in now.adverts && j != k ==>
      var a, b := now.adverts[j], now.adverts[k];
      && a.signed.tx != b.signed.tx
      && (a.endedAt.Some? || b.endedAt.Some? || a.signed.target != b.signed.target || a.signed.layout != b.signed.layout)
    ensures forall k :: k in now.adverts ==>
      var row := now.adverts[k];
      && k == AdvertKey(row.signed.publication, row.generation) && row.generation >= 1 && k.publication in now.publications
      && (row.endedAt.Some? <==> row.endReason.Some?) && (row.switchedAt.Some? ==> row.confirmedAt.Some?)
    ensures forall id :: id in db.publications && db.publications[id].tx.Some? ==>
      && id in now.publications
      && var was, row := db.publications[id], now.publications[id];
         && row.tx == was.tx && row.target == was.target && row.requestHash == was.requestHash
         && (row == was || (row.phase != Preparing && row.phase != Prepared))
    ensures forall k :: k in db.adverts ==>
      && k in now.adverts
      && var was, row := db.adverts[k], now.adverts[k];
         && row.signed == was.signed
         && (was.confirmedAt.Some? ==> row.confirmedAt == was.confirmedAt) && (was.switchedAt.Some? ==> row.switchedAt == was.switchedAt)
         && (was.endedAt.Some? ==> row.endedAt == was.endedAt && row.endReason == was.endReason)
    ensures forall t :: t in db.retirements ==>
      && t in now.retirements
      && var was, row := db.retirements[t], now.retirements[t];
         row.signed == was.signed && (was.confirmedAt.Some? ==> row.confirmedAt == was.confirmedAt)
  {
    hide RunWrites, RetirementRowsOk;
    RunKeepsSchema(db, writes);
  }

  /** Only a failed publication can get other inputs. */
  lemma NoWriteChangesInputs(db: Db, w: Write)
    ensures forall id :: id in db.publications && db.publications[id].phase != Failed ==>
      && id in Attempt(db, w).publications
      && var was, row := db.publications[id], Attempt(db, w).publications[id];
         row.target == was.target && row.requestHash == was.requestHash && row.terms == was.terms && row.artifact == was.artifact
         && row.workDir == was.workDir
  {
  }

  lemma {:induction false} RunKeepsSchema(db: Db, writes: seq<Write>)
    requires SchemaOk(db)
    ensures SchemaOk(RunWrites(db, writes)) && Kept(db, RunWrites(db, writes))
    decreases |writes|
  {
    if writes == [] {
      KeptReflexive(db);
    } else {
      var next := Attempt(db, writes[0]);
      AttemptKeepsSchema(db, writes[0]);
      RunKeepsSchema(next, writes[1..]);
      KeptTransitive(db, next, RunWrites(next, writes[1..]));
    }
  }
}

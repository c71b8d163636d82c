/**
 The publisher store. Each operation is a guarded change of the tables, first as
 a function of the stored state and then as a method of the store object; the
 lemmas say that every operation keeps one journal invariant and rewrites nothing.
 */
module PublisherStore {
  import opened Prelude
  import opened Ledger
  import opened PublisherTables

  datatype StoreError =
    | TargetSlotInUse
    | PublicationStateChanged
    | AdvertLayoutLive
    | AdvertStateChanged
    | ConstraintFailed   // a constraint or trigger error that no operation translates

  datatype NewPublication = NewPublication(
    target: TargetId, requestHash: nat, terms: Terms, artifact: Artifact, workDir: nat,
    supplierPkh: nat, endpointUrl: Text)

  /** The columns that a phase update may change; None leaves a column alone. */
  datatype Patch = Patch(
    phase: Option<Phase>, runtimeImage: Option<nat>, preparedAt: Option<Time>, publishedAt: Option<Time>)

  // ----- The operations as functions of the stored state -----

  function FreshPublication(n: NewPublication, at: Time): Publication {
    Publication(n.target, Preparing, n.requestHash, n.terms, n.artifact, n.workDir, None, n.supplierPkh,
                n.endpointUrl, None, None, None, None, None, at)
  }

  function Create(db: Db, id: PublicationId, n: NewPublication, at: Time): Result<Db, StoreError> {
    var row := FreshPublication(n, at);
    if id in db.publications then Err(ConstraintFailed)
    else if !SlotFree(db, id, row) then Err(TargetSlotInUse)
    else Ok(db.(publications := db.publications[id := row]))
  }

  function RetriedPublication(row: Publication, n: NewPublication, at: Time): Publication {
    FreshPublication(n, at).(advertRef := row.advertRef, tx := row.tx, actualDebit := row.actualDebit,
                             publishedAt := row.publishedAt)
  }

  function Retry(db: Db, id: PublicationId, n: NewPublication, at: Time): Result<Db, StoreError> {
    if id !in db.publications || db.publications[id].phase != Failed || db.publications[id].tx.Some?
    then Err(PublicationStateChanged)
    else
      var row := RetriedPublication(db.publications[id], n, at);
      if !SlotFree(db, id, row) then Err(TargetSlotInUse)
      else Ok(db.(publications := db.publications[id := row]))
  }

  function OrElse<T>(column: Option<T>, patched: Option<T>): Option<T> {
    if patched.Some? then patched else column
  }

  function Patched(row: Publication, patch: Patch, at: Time): Publication {
    row.(phase := if patch.phase.Some? then patch.phase.value else row.phase,
         runtimeImage := OrElse(row.runtimeImage, patch.runtimeImage),
         preparedAt := OrElse(row.preparedAt, patch.preparedAt),
         publishedAt := OrElse(row.publishedAt, patch.publishedAt),
         updatedAt := at)
  }

  function Update(db: Db, id: PublicationId, from: set<Phase>, patch: Patch, at: Time): Result<Db, StoreError> {
    if id !in db.publications || db.publications[id].phase !in from then Err(PublicationStateChanged)
    else
      var row := Patched(db.publications[id], patch, at);
      if Accepts(db, UpdatePublication(id, row)) then Ok(db.(publications := db.publications[id := row]))
      else Err(ConstraintFailed)
  }

  function NewAdvert(t: SignedAdvert, generation: nat): Advert {
    Advert(t, generation, None, None, None, None)
  }

  function Signed(row: Publication, t: SignedAdvert, at: Time): Publication {
    row.(tx := Some(t.tx), advertRef := Some(t.advertRef), actualDebit := Some(t.walletDebit), updatedAt := at)
  }

  /** The publish advert and its publication's transaction columns, in one transaction. */
  function Journal(db: Db, t: SignedAdvert, at: Time): Result<Db, StoreError> {
    var row := NewAdvert(t, 1);
    if !Accepts(db, InsertAdvert(row)) then Err(ConstraintFailed)
    else
      var p := db.publications[t.publication];
      if p.target != t.target || p.phase != Publishing || p.tx.Some? then Err(PublicationStateChanged)
      else Ok(db.(adverts := db.adverts[KeyOf(row) := row],
                  publications := db.publications[t.publication := Signed(p, t, at)]))
  }

  predicate IsGreatest(s: set<nat>, m: nat) {
    m in s && forall g :: g in s ==> g <= m
  }

  lemma {:induction false} HasGreatest(s: set<nat>)
    requires s != {}
    ensures exists m: nat :: IsGreatest(s, m)
  {
    var m :| m in s;
    var rest := s - {m};
    assert s == rest + {m};
    if rest == {} {
      assert IsGreatest(s, m);
    } else {
      HasGreatest(rest);
      var n: nat :| IsGreatest(rest, n);
      assert IsGreatest(s, if n < m then m else n);
    }
  }

  /** The greatest member of a set, or 0. */
  function Greatest(s: set<nat>): nat {
    if s == {} then 0
    else
      HasGreatest(s);
      var m: nat :| IsGreatest(s, m);
      m
  }

  function Generations(adverts: map<AdvertKey, Advert>, id: PublicationId): set<nat> {
    set k | k in adverts && k.publication == id :: k.generation
  }

  function NextGeneration(db: Db, id: PublicationId): nat {
    Greatest(Generations(db.adverts, id)) + 1
  }

  /** Only a published, signed publication in the same slot gets another generation. */
  function JournalReadvert(db: Db, t: SignedAdvert): Result<Db, StoreError> {
    if t.publication !in db.publications || db.publications[t.publication].phase != Published
       || db.publications[t.publication].tx.None? || db.publications[t.publication].target != t.target
    then Err(PublicationStateChanged)
    else
      var row := NewAdvert(t, NextGeneration(db, t.publication));
      if !TxFresh(db, KeyOf(row), row) || !LayoutFree(db, KeyOf(row), row) then Err(AdvertLayoutLive)
      else Ok(db.(adverts := db.adverts[KeyOf(row) := row]))
  }

  function SetAdvert(db: Db, key: AdvertKey, row: Advert): Db {
    db.(adverts := db.adverts[key := row])
  }

  function ConfirmAdvert(db: Db, key: AdvertKey, at: Time): Db {
    if key in db.adverts && db.adverts[key].confirmedAt.None?
    then SetAdvert(db, key, db.adverts[key].(confirmedAt := Some(at))) else db
  }

  function SwitchAdvert(db: Db, key: AdvertKey, at: Time): Result<Db, StoreError> {
    if key !in db.adverts then Err(AdvertStateChanged)
    else
      var row := db.adverts[key];
      if row.switchedAt.Some? then Ok(db)
      else if row.confirmedAt.Some? && Live(row) then Ok(SetAdvert(db, key, row.(switchedAt := Some(at))))
      else Err(AdvertStateChanged)
  }

  function ExpireAdvert(db: Db, key: AdvertKey, at: Time): Db {
    if key in db.adverts && db.adverts[key].confirmedAt.None? && Live(db.adverts[key])
    then SetAdvert(db, key, db.adverts[key].(endedAt := Some(at), endReason := Some(Expired))) else db
  }

  function JournalRetirement(db: Db, attempt: SignedRetirement): Result<Db, StoreError> {
    var row := Retirement(attempt, None);
    if Accepts(db, InsertRetirement(row)) then Ok(db.(retirements := db.retirements[attempt.tx := row]))
    else Err(ConstraintFailed)
  }

  function ConfirmRetirement(db: Db, key: AdvertKey, tx: Option<Tx>, at: Time): Db {
    if tx.Some? && tx.value in db.retirements && db.retirements[tx.value].signed.key == key
       && db.retirements[tx.value].confirmedAt.None?
    then db.(retirements := db.retirements[tx.value := db.retirements[tx.value].(confirmedAt := Some(at))])
    else db
  }

  function EndRetired(db: Db, key: AdvertKey, at: Time): Db {
    if key in db.adverts && Live(db.adverts[key])
    then SetAdvert(db, key, db.adverts[key].(endedAt := Some(at), endReason := Some(Retired))) else db
  }

  /** `tx` is the retirement that a chain read found, if any; its row is confirmed too. */
  function RetireAdvert(db: Db, key: AdvertKey, tx: Option<Tx>, at: Time): Db {
    EndRetired(ConfirmRetirement(db, key, tx, at), key, at)
  }

  function RecoveredPhase(db: Db, id: PublicationId, row: Publication): Phase {
    var first := AdvertKey(id, 1);
    if row.phase == Preparing then Failed
    else if row.phase == Publishing && row.tx.None? then Prepared
    else if row.phase == Publishing && first in db.adverts && db.adverts[first].confirmedAt.None? then ConfirmationPending
    else row.phase
  }

  function RecoveredRow(db: Db, id: PublicationId, row: Publication, at: Time): Publication {
    var phase := RecoveredPhase(db, id, row);
    if phase == row.phase then row else row.(phase := phase, updatedAt := at)
  }

  /** Boot recovery, row by row. */
  function Recover(db: Db, at: Time): Db {
    db.(publications := map id | id in db.publications :: RecoveredRow(db, id, db.publications[id], at))
  }

  // The three bulk updates that boot recovery runs one after the other.

  function FailPreparing(m: map<PublicationId, Publication>, at: Time): map<PublicationId, Publication> {
    map id | id in m :: if m[id].phase == Preparing then m[id].(phase := Failed, updatedAt := at) else m[id]
  }

  function ResetUnsigned(m: map<PublicationId, Publication>, at: Time): map<PublicationId, Publication> {
    map id | id in m ::
      if m[id].phase == Publishing && m[id].tx.None? then m[id].(phase := Prepared, updatedAt := at) else m[id]
  }

  function PendUnconfirmed(m: map<PublicationId, Publication>, adverts: map<AdvertKey, Advert>, at: Time)
    : map<PublicationId, Publication>
  {
    map id | id in m ::
      if m[id].phase == Publishing && AdvertKey(id, 1) in adverts && adverts[AdvertKey(id, 1)].confirmedAt.None?
      then m[id].(phase := ConfirmationPending, updatedAt := at) else m[id]
  }

  lemma RecoverIsThreeUpdates(db: Db, at: Time)
    ensures PendUnconfirmed(ResetUnsigned(FailPreparing(db.publications, at), at), db.adverts, at)
      == Recover(db, at).publications
  {
    var one := FailPreparing(db.publications, at);
    var two := ResetUnsigned(one, at);
    var three := PendUnconfirmed(two, db.adverts, at);
    forall id | id in db.publications ensures three[id] == RecoveredRow(db, id, db.publications[id], at) {
      assert two[id] == (if one[id].phase == Publishing && one[id].tx.None? then one[id].(phase := Prepared, updatedAt := at) else one[id]);
    }
  }

  // ----- The journal invariant -----

  /** An advert belongs to the slot of its publication. */
  ghost predicate AdvertsInSlot(db: Db) {
    forall k :: k in db.adverts && k.publication in db.publications ==>
      db.adverts[k].signed.target == db.publications[k.publication].target
  }

  /** The generations of a publication are exactly 1..n. */
  ghost predicate GenerationsContiguous(adverts: map<AdvertKey, Advert>) {
    forall id: PublicationId, g: nat, h: nat ::
      AdvertKey(id, g) in adverts && 1 <= h <= g ==> AdvertKey(id, h) in adverts
  }

  /** Generation 1 exists exactly when its publication has signed, and both name the same transaction. */
  ghost predicate PublishAdvertsMatch(db: Db) {
    forall id :: id in db.publications ==>
      var row, first := db.publications[id], AdvertKey(id, 1);
      && (row.tx.Some? <==> first in db.adverts)
      && (first in db.adverts ==>
            && row.tx == Some(db.adverts[first].signed.tx)
            && row.advertRef == Some(db.adverts[first].signed.advertRef)
            && row.actualDebit == Some(db.adverts[first].signed.walletDebit))
  }

  ghost predicate SignedNeverPublishable(publications: map<PublicationId, Publication>) {
    forall id :: id in publications && publications[id].tx.Some? ==>
      publications[id].phase != Preparing && publications[id].phase != Prepared
  }

  ghost predicate JournalOk(db: Db) {
    && SchemaOk(db) && AdvertsInSlot(db) && GenerationsContiguous(db.adverts)
    && PublishAdvertsMatch(db) && SignedNeverPublishable(db.publications)
  }

  const NO_TABLES := Db(map[], map[], map[])

  lemma EmptyJournalOk()
    ensures JournalOk(NO_TABLES)
  {
  }

  // ----- Every operation keeps it -----

  /** A publication row changes without touching its transaction columns. */
  lemma RowKeepsMatch(db: Db, id: PublicationId, row: Publication)
    requires AdvertsInSlot(db) && PublishAdvertsMatch(db) && SignedNeverPublishable(db.publications)
    requires row.tx.Some? ==> row.phase != Preparing && row.phase != Prepared
    requires if id in db.publications
      then row.tx == db.publications[id].tx && row.advertRef == db.publications[id].advertRef
        && row.actualDebit == db.publications[id].actualDebit
      else row.tx.None? && AdvertKey(id, 1) !in db.adverts
    requires forall k :: k in db.adverts && k.publication == id ==> db.adverts[k].signed.target == row.target
    ensures var db' := db.(publications := db.publications[id := row]);
      AdvertsInSlot(db') && PublishAdvertsMatch(db') && SignedNeverPublishable(db'.publications)
  {
  }

  /** A journaled advert means a signed publication. */
  lemma AdvertMeansSigned(db: Db, key: AdvertKey)
    requires JournalOk(db) && key in db.adverts
    ensures AdvertKey(key.publication, 1) in db.adverts && db.publications[key.publication].tx.Some?
  {
    assert AdvertChecks(db.adverts[key]);
    assert AdvertKey(key.publication, key.generation) == key;
  }

  lemma CreateKeeps(db: Db, id: PublicationId, n: NewPublication, at: Time)
    requires JournalOk(db) && Create(db, id, n, at).Ok?
    ensures JournalOk(Create(db, id, n, at).value) && Kept(db, Create(db, id, n, at).value)
  {
    var row := FreshPublication(n, at);
    PublicationWriteKeeps(db, id, row);
    assert forall k :: k in db.adverts ==> k.publication != id;
    RowKeepsMatch(db, id, row);
  }

  lemma RetryKeeps(db: Db, id: PublicationId, n: NewPublication, at: Time)
    requires JournalOk(db) && Retry(db, id, n, at).Ok?
    ensures JournalOk(Retry(db, id, n, at).value) && Kept(db, Retry(db, id, n, at).value)
  {
    var row := RetriedPublication(db.publications[id], n, at);
    PublicationWriteKeeps(db, id, row);
    forall k | k in db.adverts ensures k.publication != id {
      AdvertMeansSigned(db, k);
    }
    RowKeepsMatch(db, id, row);
  }

  lemma UpdateKeeps(db: Db, id: PublicationId, from: set<Phase>, patch: Patch, at: Time)
    requires JournalOk(db) && Update(db, id, from, patch, at).Ok?
    ensures JournalOk(Update(db, id, from, patch, at).value) && Kept(db, Update(db, id, from, patch, at).value)
  {
    var row := Patched(db.publications[id], patch, at);
    PublicationWriteKeeps(db, id, row);
    RowKeepsMatch(db, id, row);
  }

  lemma FirstAdvertMatches(db: Db, t: SignedAdvert, at: Time)
    requires AdvertsInSlot(db) && PublishAdvertsMatch(db) && SignedNeverPublishable(db.publications)
    requires t.publication in db.publications && AdvertKey(t.publication, 1) !in db.adverts
    requires db.publications[t.publication].target == t.target && db.publications[t.publication].phase == Publishing
    ensures var p := Signed(db.publications[t.publication], t, at);
      var db' := db.(adverts := db.adverts[AdvertKey(t.publication, 1) := NewAdvert(t, 1)],
                     publications := db.publications[t.publication := p]);
      AdvertsInSlot(db') && PublishAdvertsMatch(db') && SignedNeverPublishable(db'.publications)
  {
  }

  /** Signing keeps the publication's slot and lets every index entry stand. */
  lemma SignedHoldsSlot(db: Db, t: SignedAdvert, at: Time)
    requires JournalOk(db) && Journal(db, t, at).Ok?
    ensures var p := Signed(db.publications[t.publication], t, at);
      && SlotFree(db, t.publication, p) && SignedFinal(db.publications[t.publication], p)
      && Accepts(db.(publications := db.publications[t.publication := p]), InsertAdvert(NewAdvert(t, 1)))
  {
    hide AdvertRowsOk, TxIndexOk, LiveIndexOk, RetirementRowsOk, AdvertsInSlot, PublishAdvertsMatch, SignedNeverPublishable, GenerationsContiguous;
  }

  lemma FirstIsContiguous(adverts: map<AdvertKey, Advert>, row: Advert)
    requires GenerationsContiguous(adverts) && row.generation == 1
    ensures GenerationsContiguous(adverts[KeyOf(row) := row])
  {
  }

  lemma JournalKeeps(db: Db, t: SignedAdvert, at: Time)
    requires JournalOk(db) && Journal(db, t, at).Ok?
    ensures JournalOk(Journal(db, t, at).value) && Kept(db, Journal(db, t, at).value)
  {
    hide SlotIndexOk, AdvertRowsOk, TxIndexOk, LiveIndexOk, RetirementRowsOk, Kept, AdvertsInSlot, PublishAdvertsMatch,
         SignedNeverPublishable, TxFresh, LayoutFree;
    var row := NewAdvert(t, 1);
    var p := Signed(db.publications[t.publication], t, at);
    SignedHoldsSlot(db, t, at);
    var mid := db.(publications := db.publications[t.publication := p]);
    PublicationWriteKeeps(db, t.publication, p);
    AdvertInsertKeeps(mid, row);
    KeptTransitive(db, mid, Journal(db, t, at).value);
    FirstAdvertMatches(db, t, at);
    FirstIsContiguous(db.adverts, row);
  }

  lemma NextGenerationIsNext(db: Db, id: PublicationId)
    requires JournalOk(db) && id in db.publications && db.publications[id].tx.Some?
    ensures var n := NextGeneration(db, id);
      n >= 2 && AdvertKey(id, n) !in db.adverts && AdvertKey(id, n - 1) in db.adverts
  {
    var gens := Generations(db.adverts, id);
    assert AdvertKey(id, 1) in db.adverts;
    assert 1 in gens;
    var n := NextGeneration(db, id);
    assert n - 1 in gens && n !in gens;
    assert AdvertKey(id, n) in db.adverts ==> AdvertKey(id, n).generation in gens;
  }

  /** A later generation is added behind the newest one. */
  lemma NextAdvertMatches(db: Db, row: Advert)
    requires AdvertsInSlot(db) && PublishAdvertsMatch(db) && GenerationsContiguous(db.adverts)
    requires row.generation >= 2 && AdvertKey(row.signed.publication, row.generation - 1) in db.adverts
    requires row.signed.publication in db.publications
      && db.publications[row.signed.publication].target == row.signed.target
    ensures var db' := db.(adverts := db.adverts[KeyOf(row) := row]);
      AdvertsInSlot(db') && PublishAdvertsMatch(db') && GenerationsContiguous(db'.adverts)
  {
    var db' := db.(adverts := db.adverts[KeyOf(row) := row]);
    assert GenerationsContiguous(db'.adverts);
  }

  lemma JournalReadvertKeeps(db: Db, t: SignedAdvert)
    requires JournalOk(db) && JournalReadvert(db, t).Ok?
    ensures JournalOk(JournalReadvert(db, t).value) && Kept(db, JournalReadvert(db, t).value)
  {
    hide SlotIndexOk, AdvertRowsOk, TxIndexOk, LiveIndexOk, RetirementRowsOk, Kept, AdvertsInSlot, PublishAdvertsMatch,
         SignedNeverPublishable, TxFresh, LayoutFree, NextGeneration, GenerationsContiguous;
    var row := NewAdvert(t, NextGeneration(db, t.publication));
    NextGenerationIsNext(db, t.publication);
    NextAdvertMatches(db, row);
    AdvertInsertKeeps(db, row);
  }

  /** The one shape of a change to a journaled advert: its guarded update is accepted and keeps the journal. */
  lemma SetAdvertKeeps(db: Db, key: AdvertKey, row: Advert)
    requires JournalOk(db) && key in db.adverts && AdvertChecks(row) && AdvertKept(db.adverts[key], row)
    requires Live(row) ==> Live(db.adverts[key])
    ensures JournalOk(SetAdvert(db, key, row)) && Kept(db, SetAdvert(db, key, row))
  {
    hide SlotIndexOk, TxIndexOk, RetirementRowsOk, Kept, AdvertsInSlot, PublishAdvertsMatch, SignedNeverPublishable, GenerationsContiguous, AdvertChecks;
    assert LayoutFree(db, key, row) by { hide AdvertRowsOk; }
    AdvertUpdateKeeps(db, key, row);
    SameKeysKeep(db, key, row);
  }

  /** A row that keeps its key and its signed part. */
  lemma SameKeysKeep(db: Db, key: AdvertKey, row: Advert)
    requires AdvertsInSlot(db) && PublishAdvertsMatch(db) && GenerationsContiguous(db.adverts)
    requires key in db.adverts && row.signed == db.adverts[key].signed
    ensures var db' := SetAdvert(db, key, row);
      AdvertsInSlot(db') && PublishAdvertsMatch(db') && GenerationsContiguous(db'.adverts)
  {
    var db' := SetAdvert(db, key, row);
    assert GenerationsContiguous(db'.adverts) by { assert forall k :: k in db'.adverts <==> k in db.adverts; }
  }

  lemma ConfirmKeeps(db: Db, key: AdvertKey, at: Time)
    requires JournalOk(db)
    ensures JournalOk(ConfirmAdvert(db, key, at)) && Kept(db, ConfirmAdvert(db, key, at))
  {
    KeptReflexive(db);
    if key in db.adverts && db.adverts[key].confirmedAt.None? {
      SetAdvertKeeps(db, key, db.adverts[key].(confirmedAt := Some(at)));
    }
  }

  lemma SwitchKeeps(db: Db, key: AdvertKey, at: Time)
    requires JournalOk(db) && SwitchAdvert(db, key, at).Ok?
    ensures JournalOk(SwitchAdvert(db, key, at).value) && Kept(db, SwitchAdvert(db, key, at).value)
  {
    KeptReflexive(db);
    if db.adverts[key].switchedAt.None? {
      SetAdvertKeeps(db, key, db.adverts[key].(switchedAt := Some(at)));
    }
  }

  lemma ExpireKeeps(db: Db, key: AdvertKey, at: Time)
    requires JournalOk(db)
    ensures JournalOk(ExpireAdvert(db, key, at)) && Kept(db, ExpireAdvert(db, key, at))
  {
    KeptReflexive(db);
    if key in db.adverts && db.adverts[key].confirmedAt.None? && Live(db.adverts[key]) {
      SetAdvertKeeps(db, key, db.adverts[key].(endedAt := Some(at), endReason := Some(Expired)));
    }
  }

  lemma JournalRetirementKeeps(db: Db, attempt: SignedRetirement)
    requires JournalOk(db) && JournalRetirement(db, attempt).Ok?
    ensures JournalOk(JournalRetirement(db, attempt).value) && Kept(db, JournalRetirement(db, attempt).value)
  {
    RetirementWriteKeeps(db, attempt.tx, Retirement(attempt, None));
  }

  lemma ConfirmRetirementKeeps(db: Db, key: AdvertKey, tx: Option<Tx>, at: Time)
    requires JournalOk(db)
    ensures JournalOk(ConfirmRetirement(db, key, tx, at)) && Kept(db, ConfirmRetirement(db, key, tx, at))
  {
    KeptReflexive(db);
    if tx.Some? && tx.value in db.retirements && db.retirements[tx.value].confirmedAt.None? {
      RetirementWriteKeeps(db, tx.value, db.retirements[tx.value].(confirmedAt := Some(at)));
    }
  }

  lemma RetireKeeps(db: Db, key: AdvertKey, tx: Option<Tx>, at: Time)
    requires JournalOk(db)
    ensures JournalOk(RetireAdvert(db, key, tx, at)) && Kept(db, RetireAdvert(db, key, tx, at))
  {
    ConfirmRetirementKeeps(db, key, tx, at);
    var mid := ConfirmRetirement(db, key, tx, at);
    KeptReflexive(mid);
    if key in mid.adverts && Live(mid.adverts[key]) {
      SetAdvertKeeps(mid, key, mid.adverts[key].(endedAt := Some(at), endReason := Some(Retired)));
    }
    KeptTransitive(db, mid, RetireAdvert(db, key, tx, at));
  }

  lemma RecoverKeepsRows(db: Db, at: Time)
    requires AdvertsInSlot(db) && PublishAdvertsMatch(db) && SignedNeverPublishable(db.publications)
    ensures var db' := Recover(db, at);
      && AdvertsInSlot(db') && PublishAdvertsMatch(db') && SignedNeverPublishable(db'.publications)
      && PublicationsKept(db.publications, db'.publications)
  {
  }

  lemma RecoverKeeps(db: Db, at: Time)
    requires JournalOk(db)
    ensures JournalOk(Recover(db, at)) && Kept(db, Recover(db, at))
  {
    var db' := Recover(db, at);
    RecoverKeepsRows(db, at);
    forall id | id in db'.publications && HoldsSlot(db'.publications[id])
      ensures HoldsSlot(db.publications[id]) && db'.publications[id].target == db.publications[id].target
    {
    }
    assert SlotIndexOk(db'.publications);
    assert AdvertRowsOk(db') && RetirementRowsOk(db');
    KeptReflexive(db);
  }

  /**
   Where a restart leaves every publication: an interrupted preparation failed, an
   unsigned publish is prepared again, and a signed one waits for evidence unless
   it is already confirmed. Nothing else changes, and recovering twice is
   recovering once.
   */
  lemma RecoverSettlesPhases(db: Db, at: Time, again: Time)
    requires JournalOk(db)
    ensures Recover(db, at).publications.Keys == db.publications.Keys
    ensures Recover(db, at).adverts == db.adverts && Recover(db, at).retirements == db.retirements
    ensures forall id :: id in db.publications ==>
      var row, row' := db.publications[id], Recover(db, at).publications[id];
      && (row.phase == Preparing ==> row' == row.(phase := Failed, updatedAt := at))
      && (row.phase == Publishing && row.tx.None? ==> row' == row.(phase := Prepared, updatedAt := at))
      && (row.phase == Publishing && row.tx.Some? ==>
            && AdvertKey(id, 1) in db.adverts
            && row' == if db.adverts[AdvertKey(id, 1)].confirmedAt.Some? then row
                       else row.(phase := ConfirmationPending, updatedAt := at))
      && (row.phase !in {Preparing, Publishing} ==> row' == row)
    ensures Recover(Recover(db, at), again) == Recover(db, at)
  {
    hide SchemaOk, AdvertsInSlot, GenerationsContiguous;
    var once := Recover(db, at);
    forall id | id in db.publications
      ensures RecoveredRow(once, id, once.publications[id], again) == once.publications[id]
    {
      assert RecoveredPhase(once, id, once.publications[id]) == once.publications[id].phase;
    }
    assert Recover(once, again).publications == once.publications;
  }

  /** Journaling the publish advert succeeds exactly in these states; no other index can be in its way. */
  lemma JournalSucceedsExactly(db: Db, t: SignedAdvert, at: Time)
    requires JournalOk(db)
    ensures Journal(db, t, at).Ok? <==>
      && t.publication in db.publications && db.publications[t.publication].target == t.target
      && db.publications[t.publication].phase == Publishing && db.publications[t.publication].tx.None?
      && (forall k :: k in db.adverts ==> db.adverts[k].signed.tx != t.tx)
  {
    var row := NewAdvert(t, 1);
    if t.publication in db.publications && db.publications[t.publication].target == t.target
       && db.publications[t.publication].phase == Publishing && db.publications[t.publication].tx.None? {
      forall other | other in db.adverts ensures db.adverts[other].signed.target != t.target {
        AdvertMeansSigned(db, other);
        assert HoldsSlot(db.publications[other.publication]) && HoldsSlot(db.publications[t.publication]);
      }
      assert KeyOf(row) !in db.adverts && LayoutFree(db, KeyOf(row), row);
    }
  }

  // ----- Which advert a publication serves -----

  lemma GenerationsAreOneToN(db: Db, id: PublicationId)
    requires JournalOk(db)
    ensures var n := Greatest(Generations(db.adverts, id));
      forall g: nat :: AdvertKey(id, g) in db.adverts <==> 1 <= g <= n
  {
    var gens := Generations(db.adverts, id);
    var n := Greatest(gens);
    forall g: nat | AdvertKey(id, g) in db.adverts ensures 1 <= g <= n {
      assert AdvertChecks(db.adverts[AdvertKey(id, g)]);
      assert AdvertKey(id, g).generation in gens;
    }
    if n > 0 {
      assert n in gens;
      assert AdvertKey(id, n) in db.adverts;
    }
  }

  function AdvertsUpTo(adverts: map<AdvertKey, Advert>, id: PublicationId, n: nat): (rows: seq<Advert>)
    requires forall g: nat :: 1 <= g <= n ==> AdvertKey(id, g) in adverts
    ensures |rows| == n
    ensures forall i :: 0 <= i < n ==> rows[i] == adverts[AdvertKey(id, i + 1)]
  {
    if n == 0 then [] else AdvertsUpTo(adverts, id, n - 1) + [adverts[AdvertKey(id, n)]]
  }

  /** The rows of one publication in generation order. */
  function Adverts(db: Db, id: PublicationId): (rows: seq<Advert>)
    requires JournalOk(db)
    ensures forall i :: 0 <= i < |rows| ==> AdvertKey(id, i + 1) in db.adverts && rows[i] == db.adverts[AdvertKey(id, i + 1)]
    ensures forall g: nat :: AdvertKey(id, g) in db.adverts ==> 1 <= g <= |rows|
  {
    GenerationsAreOneToN(db, id);
    AdvertsUpTo(db.adverts, id, Greatest(Generations(db.adverts, id)))
  }

  function NewestSwitched(rows: seq<Advert>): Option<Advert> {
    if rows == [] then None
    else
      var last := rows[|rows| - 1];
      if Live(last) && last.switchedAt.Some? then Some(last) else NewestSwitched(rows[..|rows| - 1])
  }

  function NewestConfirmed(rows: seq<Advert>): Option<Advert> {
    if rows == [] then None
    else
      var last := rows[|rows| - 1];
      if Live(last) && last.confirmedAt.Some? then Some(last) else NewestConfirmed(rows[..|rows| - 1])
  }

  function LivePublishAdvert(rows: seq<Advert>): Option<Advert> {
    if rows == [] then None
    else if Live(rows[0]) && rows[0].generation == 1 then Some(rows[0])
    else LivePublishAdvert(rows[1..])
  }

  /** Order of preference: switched and live, then generation 1 if live, then the last confirmed live row. */
  function ServingAdvert(rows: seq<Advert>): Option<Advert> {
    if NewestSwitched(rows).Some? then NewestSwitched(rows)
    else if LivePublishAdvert(rows).Some? then LivePublishAdvert(rows)
    else NewestConfirmed(rows)
  }

  /** The first row that is both live and in the identity layout. */
  function LiveIdentityAdvert(rows: seq<Advert>): Option<Advert> {
    if rows == [] then None
    else if rows[0].signed.layout == Identity && Live(rows[0]) then Some(rows[0])
    else LiveIdentityAdvert(rows[1..])
  }

  lemma {:induction false} NewestSwitchedFinds(rows: seq<Advert>)
    ensures match NewestSwitched(rows)
      case Some(a) => a in rows && Live(a) && a.switchedAt.Some?
      case None => forall a :: a in rows ==> !(Live(a) && a.switchedAt.Some?)
  {
    if rows != [] {
      NewestSwitchedFinds(rows[..|rows| - 1]);
      assert rows == rows[..|rows| - 1] + [rows[|rows| - 1]];
    }
  }

  lemma {:induction false} NewestConfirmedFinds(rows: seq<Advert>)
    ensures match NewestConfirmed(rows)
      case Some(a) => a in rows && Live(a) && a.confirmedAt.Some?
      case None => forall a :: a in rows ==> !(Live(a) && a.confirmedAt.Some?)
  {
    if rows != [] {
      NewestConfirmedFinds(rows[..|rows| - 1]);
      assert rows == rows[..|rows| - 1] + [rows[|rows| - 1]];
    }
  }

  lemma {:induction false} LivePublishAdvertFinds(rows: seq<Advert>)
    ensures match LivePublishAdvert(rows)
      case Some(a) => a in rows && Live(a) && a.generation == 1
      case None => forall a :: a in rows ==> !(Live(a) && a.generation == 1)
  {
    if rows != [] {
      LivePublishAdvertFinds(rows[1..]);
      assert rows == [rows[0]] + rows[1..];
    }
  }

  lemma {:induction false} LiveIdentityAdvertFinds(rows: seq<Advert>)
    ensures match LiveIdentityAdvert(rows)
      case Some(a) => a in rows && Live(a) && a.signed.layout == Identity
      case None => forall a :: a in rows ==> !(Live(a) && a.signed.layout == Identity)
  {
    if rows != [] {
      LiveIdentityAdvertFinds(rows[1..]);
      assert rows == [rows[0]] + rows[1..];
    }
  }

  /** A publication serves an advert exactly when it has a live one that is its first, or is confirmed. */
  lemma ServingExistsExactly(db: Db, id: PublicationId)
    requires JournalOk(db)
    ensures ServingAdvert(Adverts(db, id)).Some? <==>
      exists g :: AdvertKey(id, g) in db.adverts && Live(db.adverts[AdvertKey(id, g)])
        && (g == 1 || db.adverts[AdvertKey(id, g)].confirmedAt.Some?)
  {
    var rows := Adverts(db, id);
    NewestSwitchedFinds(rows);
    NewestConfirmedFinds(rows);
    LivePublishAdvertFinds(rows);
    if ServingAdvert(rows).Some? {
      var a := ServingAdvert(rows).value;
      var i :| 0 <= i < |rows| && rows[i] == a;
      assert AdvertKey(id, i + 1) in db.adverts && KeyOf(a) == AdvertKey(id, i + 1);
      assert AdvertChecks(a);
    }
    forall g | AdvertKey(id, g) in db.adverts && Live(db.adverts[AdvertKey(id, g)])
        && (g == 1 || db.adverts[AdvertKey(id, g)].confirmedAt.Some?)
      ensures ServingAdvert(rows).Some?
    {
      assert rows[g - 1] == db.adverts[AdvertKey(id, g)];
      assert KeyOf(rows[g - 1]) == AdvertKey(id, g);
    }
  }

  /** The serving advert is one of the publication's stored rows. */
  lemma ServingIsStored(db: Db, id: PublicationId)
    requires JournalOk(db) && ServingAdvert(Adverts(db, id)).Some?
    ensures var row := ServingAdvert(Adverts(db, id)).value;
      && KeyOf(row) in db.adverts && KeyOf(row).publication == id && db.adverts[KeyOf(row)] == row && Live(row)
  {
    hide GenerationsContiguous, PublishAdvertsMatch, SignedNeverPublishable, AdvertsInSlot;
    var rows := Adverts(db, id);
    NewestSwitchedFinds(rows);
    NewestConfirmedFinds(rows);
    LivePublishAdvertFinds(rows);
    var row := ServingAdvert(rows).value;
    var i :| 0 <= i < |rows| && rows[i] == row;
    assert AdvertKey(id, i + 1) in db.adverts && KeyOf(row) == AdvertKey(id, i + 1);
  }

  /** A switched live advert is served, whatever else is live. */
  lemma SwitchedServes(db: Db, id: PublicationId, g: nat)
    requires JournalOk(db) && AdvertKey(id, g) in db.adverts
    requires Live(db.adverts[AdvertKey(id, g)]) && db.adverts[AdvertKey(id, g)].switchedAt.Some?
    ensures ServingAdvert(Adverts(db, id)).Some?
    ensures var row := ServingAdvert(Adverts(db, id)).value;
      && KeyOf(row) in db.adverts && KeyOf(row).publication == id && db.adverts[KeyOf(row)] == row
      && Live(row) && row.switchedAt.Some?
  {
    hide GenerationsContiguous, PublishAdvertsMatch, SignedNeverPublishable, AdvertsInSlot;
    var rows := Adverts(db, id);
    NewestSwitchedFinds(rows);
    assert rows[g - 1] == db.adverts[AdvertKey(id, g)];
    assert rows[g - 1] in rows;
    ServingIsStored(db, id);
  }

  /** Without a switched live advert the live publish advert is served. */
  lemma PublishServes(db: Db, id: PublicationId)
    requires JournalOk(db) && AdvertKey(id, 1) in db.adverts && Live(db.adverts[AdvertKey(id, 1)])
    requires forall g: nat :: AdvertKey(id, g) in db.adverts ==>
      !(Live(db.adverts[AdvertKey(id, g)]) && db.adverts[AdvertKey(id, g)].switchedAt.Some?)
    ensures ServingAdvert(Adverts(db, id)).Some? && KeyOf(ServingAdvert(Adverts(db, id)).value) == AdvertKey(id, 1)
  {
    hide GenerationsContiguous, PublishAdvertsMatch, SignedNeverPublishable, AdvertsInSlot;
    var rows := Adverts(db, id);
    NewestSwitchedFinds(rows);
    LivePublishAdvertFinds(rows);
    assert rows[0] == db.adverts[AdvertKey(id, 1)];
    assert KeyOf(rows[0]) == AdvertKey(id, 1) && rows[0] in rows;
    ServingIsStored(db, id);
  }

  /** The last row of the given kind, if there is one. */
  predicate IsLast(rows: seq<Advert>, a: Advert, kind: Advert -> bool) {
    exists i :: 0 <= i < |rows| && rows[i] == a && kind(a) && forall j :: i < j < |rows| ==> !kind(rows[j])
  }

  lemma {:induction false} NewestSwitchedIsLast(rows: seq<Advert>)
    ensures NewestSwitched(rows).Some? ==>
      IsLast(rows, NewestSwitched(rows).value, (a: Advert) => a.endedAt.None? && a.switchedAt.Some?)
  {
    if rows != [] && NewestSwitched(rows).Some? {
      var kind := (a: Advert) => a.endedAt.None? && a.switchedAt.Some?;
      var front, last := rows[..|rows| - 1], rows[|rows| - 1];
      if kind(last) {
        assert rows[|rows| - 1] == NewestSwitched(rows).value;
      } else {
        NewestSwitchedIsLast(front);
        LastStaysLast(front, last, NewestSwitched(rows).value, kind);
        assert front + [last] == rows;
      }
    }
  }

  lemma {:induction false} NewestConfirmedIsLast(rows: seq<Advert>)
    ensures NewestConfirmed(rows).Some? ==>
      IsLast(rows, NewestConfirmed(rows).value, (a: Advert) => a.endedAt.None? && a.confirmedAt.Some?)
  {
    if rows != [] && NewestConfirmed(rows).Some? {
      var kind := (a: Advert) => a.endedAt.None? && a.confirmedAt.Some?;
      var front, last := rows[..|rows| - 1], rows[|rows| - 1];
      if kind(last) {
        assert rows[|rows| - 1] == NewestConfirmed(rows).value;
      } else {
        NewestConfirmedIsLast(front);
        LastStaysLast(front, last, NewestConfirmed(rows).value, kind);
        assert front + [last] == rows;
      }
    }
  }

  lemma LastStaysLast(front: seq<Advert>, last: Advert, a: Advert, kind: Advert -> bool)
    requires IsLast(front, a, kind) && !kind(last)
    ensures IsLast(front + [last], a, kind)
  {
    var i :| 0 <= i < |front| && front[i] == a && kind(a) && forall j :: i < j < |front| ==> !kind(front[j]);
    assert (front + [last])[i] == a;
  }

  predicate SwitchedAndLive(db: Db, id: PublicationId, g: nat) {
    var key := AdvertKey(id, g);
    key in db.adverts && db.adverts[key].switchedAt.Some? && db.adverts[key].endedAt.None?
  }

  predicate ConfirmedAndLive(db: Db, id: PublicationId, g: nat) {
    var key := AdvertKey(id, g);
    key in db.adverts && db.adverts[key].confirmedAt.Some? && db.adverts[key].endedAt.None?
  }

  lemma GenerationsAreIndexes(db: Db, id: PublicationId)
    requires JournalOk(db)
    ensures var rows := Adverts(db, id); forall i :: 0 <= i < |rows| ==> rows[i].generation == i + 1
    ensures forall h: nat :: AdvertKey(id, h) in db.adverts ==>
      1 <= h <= |Adverts(db, id)| && Adverts(db, id)[h - 1] == db.adverts[AdvertKey(id, h)]
  {
    hide PublishAdvertsMatch, SignedNeverPublishable, AdvertsInSlot;
    var rows := Adverts(db, id);
    forall i | 0 <= i < |rows| ensures rows[i].generation == i + 1 {
      assert rows[i] == db.adverts[AdvertKey(id, i + 1)];
      assert KeyOf(rows[i]) == AdvertKey(id, i + 1);
    }
  }

  lemma NewestSwitchedIsNewest(db: Db, id: PublicationId)
    requires JournalOk(db)
    ensures var found := NewestSwitched(Adverts(db, id));
      && (found.None? ==> forall h: nat :: !SwitchedAndLive(db, id, h))
      && (found.Some? ==>
            && SwitchedAndLive(db, id, found.value.generation)
            && forall h: nat :: SwitchedAndLive(db, id, h) ==> h <= found.value.generation)
  {
    hide JournalOk, NewestSwitched;
    var rows := Adverts(db, id);
    GenerationsAreIndexes(db, id);
    NewestSwitchedFinds(rows);
    NewestSwitchedIsLast(rows);
    forall h: nat | SwitchedAndLive(db, id, h) ensures NewestSwitched(rows).Some? && h <= NewestSwitched(rows).value.generation {
      assert rows[h - 1] in rows;
    }
  }

  lemma NewestConfirmedIsNewest(db: Db, id: PublicationId)
    requires JournalOk(db)
    ensures var found := NewestConfirmed(Adverts(db, id));
      && (found.None? ==> forall h: nat :: !ConfirmedAndLive(db, id, h))
      && (found.Some? ==>
            && ConfirmedAndLive(db, id, found.value.generation)
            && forall h: nat :: ConfirmedAndLive(db, id, h) ==> h <= found.value.generation)
  {
    hide JournalOk, NewestConfirmed;
    var rows := Adverts(db, id);
    GenerationsAreIndexes(db, id);
    NewestConfirmedFinds(rows);
    NewestConfirmedIsLast(rows);
    forall h: nat | ConfirmedAndLive(db, id, h) ensures NewestConfirmed(rows).Some? && h <= NewestConfirmed(rows).value.generation {
      assert rows[h - 1] in rows;
    }
  }

  lemma FirstLiveServes(db: Db, id: PublicationId)
    requires JournalOk(db)
    ensures var found := LivePublishAdvert(Adverts(db, id));
      && (found.Some? <==> AdvertKey(id, 1) in db.adverts && db.adverts[AdvertKey(id, 1)].endedAt.None?)
      && (found.Some? ==> found.value.generation == 1)
  {
    hide JournalOk, LivePublishAdvert;
    var rows := Adverts(db, id);
    GenerationsAreIndexes(db, id);
    LivePublishAdvertFinds(rows);
    if AdvertKey(id, 1) in db.adverts { assert rows[0] in rows; }
  }

  /**
   Which advert is served, by generation: the newest that is live and switched; when
   none is, generation 1 if it is live; and failing that the newest that is live and
   confirmed.
   */
  lemma ServesByPreference(db: Db, id: PublicationId)
    requires JournalOk(db) && ServingAdvert(Adverts(db, id)).Some?
    ensures var g := ServingAdvert(Adverts(db, id)).value.generation;
      if exists h: nat :: SwitchedAndLive(db, id, h) then
        SwitchedAndLive(db, id, g) && forall h: nat :: SwitchedAndLive(db, id, h) ==> h <= g
      else if AdvertKey(id, 1) in db.adverts && db.adverts[AdvertKey(id, 1)].endedAt.None? then g == 1
      else ConfirmedAndLive(db, id, g) && forall h: nat :: ConfirmedAndLive(db, id, h) ==> h <= g
  {
    hide JournalOk, NewestSwitched, NewestConfirmed, LivePublishAdvert, SwitchedAndLive, ConfirmedAndLive;
    NewestSwitchedIsNewest(db, id);
    NewestConfirmedIsNewest(db, id);
    FirstLiveServes(db, id);
  }
}

/**
 The earlier advert journal allowed a publication, and a slot, a single row. Its
 migration copies these rows into the journal with generations.
 */
module AdvertMigration {
  import opened Prelude
  import opened Ledger
  import opened PublisherTables
  import S = PublisherStore

  datatype OldAdvert = OldAdvert(
    publication: PublicationId, target: TargetId, tx: Tx, advertRef: OutRef, advertAddress: Address,
    datum: Datum, walletInputs: seq<WalletInput>, fee: nat, walletDebit: int, maxDebit: int,
    validUntil: Option<Slot>, signedAt: Time, confirmedAt: Option<Time>)

  datatype MigrationError = RowCollision | ForeignKeyBroken

  /** A datum that no advert decoder reads counts as legacy. */
  function LayoutOf(datum: Datum): Layout {
    if datum.AdvertDatum? && datum.agent.Some? then Identity else Legacy
  }

  function SignedOf(row: OldAdvert): SignedAdvert {
    SignedAdvert(row.publication, LayoutOf(row.datum), row.target, row.tx, row.advertRef, row.advertAddress,
                 row.datum, row.walletInputs, row.fee, row.walletDebit, row.maxDebit, row.validUntil, row.signedAt)
  }

  /** Phase `Failed` in the old tables means that the attempt ran out of time, so its copy is ended. */
  function Migrated(publications: map<PublicationId, Publication>, row: OldAdvert): Advert {
    var expired := row.publication in publications && publications[row.publication].phase == Failed;
    Advert(SignedOf(row), 1, row.confirmedAt, None,
           if expired then Some(publications[row.publication].updatedAt) else None,
           if expired then Some(Expired) else None)
  }

  function KeyFor(row: OldAdvert): AdvertKey {
    AdvertKey(row.publication, 1)
  }

  /** The keys of the old table: publication, slot and transaction are each unique. */
  predicate OldKeysUnique(rows: seq<OldAdvert>) {
    forall i, j :: 0 <= i < j < |rows| ==>
      && rows[i].publication != rows[j].publication && rows[i].target != rows[j].target
      && rows[i].tx != rows[j].tx
  }

  predicate IsKeyOfFirst(rows: seq<OldAdvert>, n: nat, k: AdvertKey)
    requires n <= |rows|
  {
    exists i :: 0 <= i < n && KeyFor(rows[i]) == k
  }

  /** The first `n` old rows are generation 1 of their publications, and there is nothing else. */
  ghost predicate CopiesFirst(publications: map<PublicationId, Publication>, rows: seq<OldAdvert>, n: nat,
                              adverts: map<AdvertKey, Advert>)
    requires n <= |rows|
  {
    && (forall i :: 0 <= i < n ==>
          KeyFor(rows[i]) in adverts && adverts[KeyFor(rows[i])] == Migrated(publications, rows[i]))
    && (forall k :: k in adverts ==> IsKeyOfFirst(rows, n, k))
    && |adverts| == n
  }

  ghost predicate CopiesAll(publications: map<PublicationId, Publication>, rows: seq<OldAdvert>,
                            adverts: map<AdvertKey, Advert>)
  {
    CopiesFirst(publications, rows, |rows|, adverts)
  }

  lemma CopiesOneMore(publications: map<PublicationId, Publication>, rows: seq<OldAdvert>, n: nat,
                      adverts: map<AdvertKey, Advert>)
    requires OldKeysUnique(rows) && n < |rows| && CopiesFirst(publications, rows, n, adverts)
    ensures CopiesFirst(publications, rows, n + 1,
                        adverts[KeyFor(rows[n]) := Migrated(publications, rows[n])])
  {
    hide Migrated, IsKeyOfFirst;
    var key := KeyFor(rows[n]);
    NewKey(rows, n);
    assert key !in adverts;
    forall k | k in adverts ensures IsKeyOfFirst(rows, n + 1, k) {
      KeyStays(rows, n, k);
    }
  }

  lemma KeyStays(rows: seq<OldAdvert>, n: nat, k: AdvertKey)
    requires n < |rows| && IsKeyOfFirst(rows, n, k)
    ensures IsKeyOfFirst(rows, n + 1, k)
  {
  }

  lemma NewKey(rows: seq<OldAdvert>, n: nat)
    requires OldKeysUnique(rows) && n < |rows|
    ensures IsKeyOfFirst(rows, n + 1, KeyFor(rows[n])) && !IsKeyOfFirst(rows, n, KeyFor(rows[n]))
  {
  }

  method MigrateAdvertJournal(publications: map<PublicationId, Publication>, rows: seq<OldAdvert>)
    returns (r: Result<map<AdvertKey, Advert>, MigrationError>)
    requires OldKeysUnique(rows)
    ensures r.Ok? ==> CopiesAll(publications, rows, r.value)
    ensures r.Ok? <==> forall i :: 0 <= i < |rows| ==> rows[i].publication in publications
    ensures r.Ok? ==> forall i :: 0 <= i < |rows| ==>
      && AdvertKey(rows[i].publication, 1) in r.value
      && var row, copy, p := rows[i], r.value[AdvertKey(rows[i].publication, 1)], publications[rows[i].publication];
         && copy.generation == 1 && copy.confirmedAt == row.confirmedAt && copy.switchedAt == None
         && copy.endedAt == (if p.phase == Failed then Some(p.updatedAt) else None)
         && copy.endReason == (if p.phase == Failed then Some(Expired) else None)
         && copy.signed == SignedAdvert(row.publication, copy.signed.layout, row.target, row.tx, row.advertRef, row.advertAddress, row.datum,
                                        row.walletInputs, row.fee, row.walletDebit, row.maxDebit, row.validUntil, row.signedAt)
         && (copy.signed.layout == Identity <==> row.datum.AdvertDatum? && row.datum.agent.Some?)
  {
    var adverts: map<AdvertKey, Advert> := map[];
    assert CopiesFirst(publications, rows, 0, adverts);
    for n := 0 to |rows|
      invariant CopiesFirst(publications, rows, n, adverts)
    {
      CopiesOneMore(publications, rows, n, adverts);
      adverts := adverts[KeyFor(rows[n]) := Migrated(publications, rows[n])];
    }
    if |adverts| != |rows| {
      return Err(RowCollision);
    }
    if exists i :: 0 <= i < |rows| && rows[i].publication !in publications {
      return Err(ForeignKeyBroken);
    }
    return Ok(adverts);
  }

  /** What the earlier service kept: a publication has signed exactly when its row is in the old journal. */
  ghost predicate OldJournalOk(publications: map<PublicationId, Publication>, rows: seq<OldAdvert>) {
    && OldKeysUnique(rows) && SlotIndexOk(publications) && S.SignedNeverPublishable(publications)
    && (forall i :: 0 <= i < |rows| ==>
          && rows[i].publication in publications
          && var p := publications[rows[i].publication];
             p.target == rows[i].target && p.tx == Some(rows[i].tx) && p.advertRef == Some(rows[i].advertRef)
             && p.actualDebit == Some(rows[i].walletDebit))
    && (forall id :: id in publications && publications[id].tx.Some? ==>
          exists i :: 0 <= i < |rows| && rows[i].publication == id)
  }

  lemma MigratedRow(publications: map<PublicationId, Publication>, rows: seq<OldAdvert>,
                    adverts: map<AdvertKey, Advert>, k: AdvertKey) returns (i: nat)
    requires CopiesAll(publications, rows, adverts) && k in adverts
    ensures i < |rows| && k == KeyFor(rows[i]) && adverts[k] == Migrated(publications, rows[i])
  {
    assert IsKeyOfFirst(rows, |rows|, k);
    var n :| 0 <= n < |rows| && KeyFor(rows[n]) == k;
    i := n;
  }

  lemma MigratedIndexes(publications: map<PublicationId, Publication>, rows: seq<OldAdvert>,
                        adverts: map<AdvertKey, Advert>)
    requires OldKeysUnique(rows) && CopiesAll(publications, rows, adverts)
    ensures TxIndexOk(adverts) && LiveIndexOk(adverts)
  {
    forall j, k | j in adverts && k in adverts && j != k
      ensures adverts[j].signed.tx != adverts[k].signed.tx && adverts[j].signed.target != adverts[k].signed.target
    {
      var a := MigratedRow(publications, rows, adverts, j);
      var b := MigratedRow(publications, rows, adverts, k);
      assert a < b || b < a;
    }
  }

  lemma MigratedRowsOk(publications: map<PublicationId, Publication>, rows: seq<OldAdvert>,
                       adverts: map<AdvertKey, Advert>)
    requires OldJournalOk(publications, rows) && CopiesAll(publications, rows, adverts)
    ensures var db := Db(publications, adverts, map[]);
      AdvertRowsOk(db) && S.AdvertsInSlot(db) && S.GenerationsContiguous(adverts)
  {
    hide CopiesFirst, CopiesAll, SlotIndexOk, S.SignedNeverPublishable;
    forall k | k in adverts
      ensures k.generation == 1 && k.publication in publications && KeyOf(adverts[k]) == k
        && AdvertChecks(adverts[k]) && adverts[k].signed.target == publications[k.publication].target
    {
      var i := MigratedRow(publications, rows, adverts, k);
    }
  }

  lemma MigratedRowMatches(publications: map<PublicationId, Publication>, rows: seq<OldAdvert>,
                           adverts: map<AdvertKey, Advert>, id: PublicationId)
    requires OldJournalOk(publications, rows) && CopiesAll(publications, rows, adverts) && id in publications
    ensures var row, first := publications[id], AdvertKey(id, 1);
      && (row.tx.Some? <==> first in adverts)
      && (first in adverts ==>
            && row.tx == Some(adverts[first].signed.tx) && row.advertRef == Some(adverts[first].signed.advertRef)
            && row.actualDebit == Some(adverts[first].signed.walletDebit))
  {
    if publications[id].tx.Some? {
      var i :| 0 <= i < |rows| && rows[i].publication == id;
      assert KeyFor(rows[i]) in adverts;
    }
    if AdvertKey(id, 1) in adverts {
      var i := MigratedRow(publications, rows, adverts, AdvertKey(id, 1));
    }
  }

  /** The migrated tables satisfy the whole journal invariant of the new layout. */
  lemma MigrationEstablishesJournal(publications: map<PublicationId, Publication>, rows: seq<OldAdvert>,
                                    adverts: map<AdvertKey, Advert>)
    requires OldJournalOk(publications, rows) && CopiesAll(publications, rows, adverts)
    ensures S.JournalOk(Db(publications, adverts, map[]))
  {
    hide CopiesFirst;
    MigratedIndexes(publications, rows, adverts);
    MigratedRowsOk(publications, rows, adverts);
    forall id | id in publications {
      MigratedRowMatches(publications, rows, adverts, id);
    }
    assert S.PublishAdvertsMatch(Db(publications, adverts, map[]));
  }
}

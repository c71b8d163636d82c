/**
 The publisher boots from a migrated journal as from any other: what the old
 tables must satisfy so that the theorems about runs apply to it.
 */
module MigratedBoot {
  import opened Prelude
  import opened Ledger
  import opened PublisherTables
  import S = PublisherStore
  import opened AdvertMigration
  import opened PublisherService
  import opened PublisherProtocol
  import opened PublisherSafety

  /**
   The old service ran the same check before it journaled, for the same offer, and
   published only what was signed and confirmed; its phases meant the same.
   */
  ghost predicate OldServiceOk(cfg: Config, publications: map<PublicationId, Publication>, rows: seq<OldAdvert>) {
    && OldJournalOk(publications, rows)
    && (forall i :: 0 <= i < |rows| ==>
          AdvertRowChecked(cfg, SignedOf(rows[i])) && OfferRowOk(cfg, publications, SignedOf(rows[i])))
    && (forall id :: id in publications ==> PhaseRowOk(publications[id]))
    && (forall i :: 0 <= i < |rows| && publications[rows[i].publication].phase == Published ==> rows[i].confirmedAt.Some?)
  }

  /** What the old service gave up as expired is dead on the adopted chain. */
  ghost predicate OldExpiredAreDead(publications: map<PublicationId, Publication>, rows: seq<OldAdvert>, c: ChainState)
    requires OldJournalOk(publications, rows)
  {
    forall i :: 0 <= i < |rows| && publications[rows[i].publication].phase == Failed ==> Dead(c, rows[i].tx)
  }

  lemma MigratedRowChecked(cfg: Config, publications: map<PublicationId, Publication>, rows: seq<OldAdvert>,
                           adverts: map<AdvertKey, Advert>, k: AdvertKey)
    requires OldServiceOk(cfg, publications, rows) && CopiesAll(publications, rows, adverts) && k in adverts
    ensures k.generation == 1 && AdvertRowChecked(cfg, adverts[k].signed) && AdvertStateOk(adverts[k])
    ensures OfferRowOk(cfg, publications, adverts[k].signed)
  {
    hide AdvertRowChecked, OfferRowOk, CopiesAll, OldJournalOk;
    var i := MigratedRow(publications, rows, adverts, k);
  }

  lemma MigratedConfirmed(cfg: Config, publications: map<PublicationId, Publication>, rows: seq<OldAdvert>,
                          adverts: map<AdvertKey, Advert>, id: PublicationId)
    requires OldServiceOk(cfg, publications, rows) && CopiesAll(publications, rows, adverts)
    requires id in publications && publications[id].phase == Published
    ensures AdvertKey(id, 1) in adverts && adverts[AdvertKey(id, 1)].confirmedAt.Some?
  {
    hide AdvertRowChecked, CopiesAll, OldJournalOk;
    MigratedRowMatches(publications, rows, adverts, id);
    var i := MigratedRow(publications, rows, adverts, AdvertKey(id, 1));
  }

  lemma MigratedJournalOk(cfg: Config, publications: map<PublicationId, Publication>, rows: seq<OldAdvert>,
                          adverts: map<AdvertKey, Advert>)
    requires OldServiceOk(cfg, publications, rows) && CopiesAll(publications, rows, adverts)
    ensures S.JournalOk(Db(publications, adverts, map[]))
  {
    hide AdvertRowChecked, OldJournalOk, S.JournalOk, CopiesAll;
    MigrationEstablishesJournal(publications, rows, adverts);
  }

  lemma MigratedServiceOk(cfg: Config, publications: map<PublicationId, Publication>, rows: seq<OldAdvert>,
                          adverts: map<AdvertKey, Advert>)
    requires OldServiceOk(cfg, publications, rows) && CopiesAll(publications, rows, adverts)
    ensures ServiceOk(cfg, Db(publications, adverts, map[]))
  {
    hide AdvertRowChecked, AdvertStateOk, S.JournalOk, CopiesAll, OldServiceOk, OldJournalOk, RetirementOk;
    var db := Db(publications, adverts, map[]);
    MigratedJournalOk(cfg, publications, rows, adverts);
    forall k | k in adverts ensures AdvertRowChecked(cfg, adverts[k].signed) && AdvertStateOk(adverts[k]) && k.generation == 1 {
      MigratedRowChecked(cfg, publications, rows, adverts, k);
    }
    forall id | IsPublished(db, id) ensures AdvertKey(id, 1) in adverts && adverts[AdvertKey(id, 1)].confirmedAt.Some? {
      MigratedConfirmed(cfg, publications, rows, adverts, id);
    }
  }

  lemma MigratedRowsAreOk(cfg: Config, publications: map<PublicationId, Publication>, rows: seq<OldAdvert>,
                          adverts: map<AdvertKey, Advert>)
    requires OldServiceOk(cfg, publications, rows) && CopiesAll(publications, rows, adverts)
    ensures RowsOk(cfg, Db(publications, adverts, map[]))
  {
    hide AdvertRowChecked, OfferRowOk, CopiesAll, OldJournalOk;
    forall k | k in adverts ensures OfferRowOk(cfg, publications, adverts[k].signed) {
      MigratedRowChecked(cfg, publications, rows, adverts, k);
    }
  }

  /** A process that starts over migrated tables is a first state of the runs that the theorems speak of. */
  lemma MigratedTablesBoot(cfg: Config, publications: map<PublicationId, Publication>, rows: seq<OldAdvert>,
                           adverts: map<AdvertKey, Advert>, c: ChainState)
    requires OldServiceOk(cfg, publications, rows) && CopiesAll(publications, rows, adverts)
    requires ValidChain(c) && OldExpiredAreDead(publications, rows, c)
    ensures Boots(cfg, World(Db(publications, adverts, map[]), [c], {}, map[], map[], map[], map[]))
  {
    MigratedServiceOk(cfg, publications, rows, adverts);
    MigratedRowsAreOk(cfg, publications, rows, adverts);
    hide ServiceOk, RowsOk, ValidChain, Dead, CopiesAll, AdvertRowChecked, OfferRowOk;
    var db := Db(publications, adverts, map[]);
    forall k | IsExpired(adverts, k) ensures Dead(c, adverts[k].signed.tx) {
      var i := MigratedRow(publications, rows, adverts, k);
    }
  }
}

/**
 The store object: the tables as fields that each operation updates statement by
 statement, with the rollback of a transaction that fails half way.
 */
module PublisherDatabase {
  import opened Prelude
  import opened Ledger
  import opened PublisherTables
  import S = PublisherStore

  type StoreError = S.StoreError

  class PaperPublisherStore {
    var publications: map<PublicationId, Publication>
    var adverts: map<AdvertKey, Advert>
    var retirements: map<Tx, Retirement>

    function Tables(): Db
      reads this
    {
      Db(publications, adverts, retirements)
    }

    ghost predicate Valid()
      reads this
    {
      S.JournalOk(Tables())
    }

    /** The state after an operation that either succeeds or changes nothing. */
    twostate predicate Outcome(done: Result<Db, StoreError>)
      reads this
    {
      && Valid() && Kept(old(Tables()), Tables())
      && Tables() == (if done.Ok? then done.value else old(Tables()))
    }

    constructor ()
      ensures Valid() && Tables() == S.NO_TABLES
    {
      publications, adverts, retirements := map[], map[], map[];
      new;
      S.EmptyJournalOk();
    }

    method Create(id: PublicationId, n: S.NewPublication, at: Time) returns (r: Result<Publication, StoreError>)
      requires Valid()
      modifies this
      ensures var done := S.Create(old(Tables()), id, n, at);
        Outcome(done) && (if done.Ok? then r == Ok(publications[id]) else r == Err(done.error))
    {
      hide S.JournalOk, Kept;
      KeptReflexive(Tables());
      if id in publications {
        return Err(S.ConstraintFailed);
      }
      var row := S.FreshPublication(n, at);
      if !SlotFree(Tables(), id, row) {
        return Err(S.TargetSlotInUse);
      }
      S.CreateKeeps(Tables(), id, n, at);
      publications := publications[id := row];
      return Ok(publications[id]);
    }

    method Retry(id: PublicationId, n: S.NewPublication, at: Time) returns (r: Result<Publication, StoreError>)
      requires Valid()
      modifies this
      ensures var done := S.Retry(old(Tables()), id, n, at);
        Outcome(done) && (if done.Ok? then r == Ok(publications[id]) else r == Err(done.error))
    {
      hide S.JournalOk, Kept;
      KeptReflexive(Tables());
      if id !in publications || publications[id].phase != Failed || publications[id].tx.Some? {
        return Err(S.PublicationStateChanged);
      }
      var row := S.RetriedPublication(publications[id], n, at);
      if !SlotFree(Tables(), id, row) {
        return Err(S.TargetSlotInUse);
      }
      S.RetryKeeps(Tables(), id, n, at);
      publications := publications[id := row];
      return Ok(publications[id]);
    }

    method Update(id: PublicationId, from: set<Phase>, patch: S.Patch, at: Time)
      returns (r: Result<Publication, StoreError>)
      requires Valid()
      modifies this
      ensures var done := S.Update(old(Tables()), id, from, patch, at);
        Outcome(done) && (if done.Ok? then r == Ok(publications[id]) else r == Err(done.error))
    {
      hide S.JournalOk, Kept;
      KeptReflexive(Tables());
      if id !in publications || publications[id].phase !in from {
        return Err(S.PublicationStateChanged);
      }
      var row := S.Patched(publications[id], patch, at);
      if !Accepts(Tables(), UpdatePublication(id, row)) {
        return Err(S.ConstraintFailed);
      }
      S.UpdateKeeps(Tables(), id, from, patch, at);
      publications := publications[id := row];
      return Ok(publications[id]);
    }

    method Journal(t: SignedAdvert, at: Time) returns (r: Result<Publication, StoreError>)
      requires Valid()
      modifies this
      ensures var done := S.Journal(old(Tables()), t, at);
        Outcome(done) && (if done.Ok? then r == Ok(publications[t.publication]) else r == Err(done.error))
    {
      hide S.JournalOk, Kept;
      KeptReflexive(Tables());
      var row := S.NewAdvert(t, 1);
      if !Accepts(Tables(), InsertAdvert(row)) {
        return Err(S.ConstraintFailed);
      }
      if S.Journal(Tables(), t, at).Ok? {
        S.JournalKeeps(Tables(), t, at);
      }
      var begun, changes := adverts, 0;
      adverts := adverts[KeyOf(row) := row];
      var p := publications[t.publication];
      if p.target == t.target && p.phase == Publishing && p.tx.None? {
        publications := publications[t.publication := S.Signed(p, t, at)];
        changes := 1;
      }
      if changes != 1 {
        adverts := begun;
        return Err(S.PublicationStateChanged);
      }
      return Ok(publications[t.publication]);
    }

    method JournalReadvert(t: SignedAdvert) returns (r: Result<Advert, StoreError>)
      requires Valid()
      modifies this
      ensures var done := S.JournalReadvert(old(Tables()), t);
        && Outcome(done)
        && (if done.Ok? then
              r == Ok(adverts[AdvertKey(t.publication, S.NextGeneration(old(Tables()), t.publication))])
            else r == Err(done.error))
    {
      hide S.JournalOk, Kept;
      KeptReflexive(Tables());
      if t.publication !in publications || publications[t.publication].phase != Published
         || publications[t.publication].tx.None? || publications[t.publication].target != t.target {
        return Err(S.PublicationStateChanged);
      }
      var row := S.NewAdvert(t, S.NextGeneration(Tables(), t.publication));
      if !TxFresh(Tables(), KeyOf(row), row) || !LayoutFree(Tables(), KeyOf(row), row) {
        return Err(S.AdvertLayoutLive);
      }
      S.JournalReadvertKeeps(Tables(), t);
      adverts := adverts[KeyOf(row) := row];
      return Ok(adverts[KeyOf(row)]);
    }

    method ConfirmAdvert(key: AdvertKey, at: Time)
      requires Valid()
      modifies this
      ensures Outcome(Ok(S.ConfirmAdvert(old(Tables()), key, at)))
    {
      hide S.JournalOk, Kept;
      S.ConfirmKeeps(Tables(), key, at);
      if key in adverts && adverts[key].confirmedAt.None? {
        adverts := adverts[key := adverts[key].(confirmedAt := Some(at))];
      }
    }

    method SwitchAdvert(key: AdvertKey, at: Time) returns (r: Result<(), StoreError>)
      requires Valid()
      modifies this
      ensures var done := S.SwitchAdvert(old(Tables()), key, at);
        Outcome(done) && r == (if done.Ok? then Ok(()) else Err(done.error))
    {
      hide S.JournalOk, Kept;
      KeptReflexive(Tables());
      if S.SwitchAdvert(Tables(), key, at).Ok? {
        S.SwitchKeeps(Tables(), key, at);
      }
      var changes := 0;
      if key in adverts && adverts[key].confirmedAt.Some? && Live(adverts[key]) && adverts[key].switchedAt.None? {
        adverts := adverts[key := adverts[key].(switchedAt := Some(at))];
        changes := 1;
      }
      if changes != 1 && (key !in adverts || adverts[key].switchedAt.None?) {
        return Err(S.AdvertStateChanged);
      }
      return Ok(());
    }

    method ExpireAdvert(key: AdvertKey, at: Time)
      requires Valid()
      modifies this
      ensures Outcome(Ok(S.ExpireAdvert(old(Tables()), key, at)))
    {
      hide S.JournalOk, Kept;
      S.ExpireKeeps(Tables(), key, at);
      if key in adverts && adverts[key].confirmedAt.None? && Live(adverts[key]) {
        adverts := adverts[key := adverts[key].(endedAt := Some(at), endReason := Some(Expired))];
      }
    }

    method JournalRetirement(attempt: SignedRetirement) returns (r: Result<Retirement, StoreError>)
      requires Valid()
      modifies this
      ensures var done := S.JournalRetirement(old(Tables()), attempt);
        Outcome(done) && (if done.Ok? then r == Ok(retirements[attempt.tx]) else r == Err(done.error))
    {
      hide S.JournalOk, Kept;
      KeptReflexive(Tables());
      if !Accepts(Tables(), InsertRetirement(Retirement(attempt, None))) {
        return Err(S.ConstraintFailed);
      }
      S.JournalRetirementKeeps(Tables(), attempt);
      retirements := retirements[attempt.tx := Retirement(attempt, None)];
      return Ok(retirements[attempt.tx]);
    }

    method RetireAdvert(key: AdvertKey, tx: Option<Tx>, at: Time)
      requires Valid()
      modifies this
      ensures Outcome(Ok(S.RetireAdvert(old(Tables()), key, tx, at)))
    {
      hide S.JournalOk, Kept;
      S.RetireKeeps(Tables(), key, tx, at);
      if tx.Some? && tx.value in retirements && retirements[tx.value].signed.key == key
         && retirements[tx.value].confirmedAt.None? {
        retirements := retirements[tx.value := retirements[tx.value].(confirmedAt := Some(at))];
      }
      if key in adverts && Live(adverts[key]) {
        adverts := adverts[key := adverts[key].(endedAt := Some(at), endReason := Some(Retired))];
      }
    }

    /** Three updates in one transaction; together they are the row-by-row recovery. */
    method Recover(at: Time)
      requires Valid()
      modifies this
      ensures Outcome(Ok(S.Recover(old(Tables()), at)))
      ensures forall id :: id in old(publications) ==>
        var row := old(publications)[id];
        && id in publications
        && publications[id].phase ==
             if row.phase == Preparing then Failed
             else if row.phase == Publishing && row.tx.None? then Prepared
             else if row.phase == Publishing && old(adverts)[AdvertKey(id, 1)].confirmedAt.None? then ConfirmationPending
             else row.phase
    {
      hide S.JournalOk, Kept, S.Recover, S.FailPreparing, S.ResetUnsigned, S.PendUnconfirmed;
      S.RecoverKeeps(Tables(), at);
      S.RecoverSettlesPhases(Tables(), at, at);
      S.RecoverIsThreeUpdates(Tables(), at);
      publications := S.FailPreparing(publications, at);
      publications := S.ResetUnsigned(publications, at);
      publications := S.PendUnconfirmed(publications, adverts, at);
    }
  }
}

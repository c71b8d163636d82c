/**
 A run of the publisher in which a rollback makes the retired verdict wrong. The
 slot publishes a legacy advert, a fork drops the advert's block, a settling read
 misses the output and records the advert as retired, and the next block carries
 the same transaction again.
 */
module RetiredRollback {
  import opened Prelude
  import opened Ledger
  import opened PublisherTables
  import C = AdvertCheck
  import S = PublisherStore
  import opened PublisherService
  import opened PublisherProtocol
  import opened PublisherSafety
  import V = RetiredVerdict

  const SLOT := C.Slot(0, 7, 1, 0, 2, 3)
  const CONFIG := Config(map[0 := SLOT])
  const FIRST := AdvertKey(0, 1)

  const REQUEST := S.NewPublication(0, 0, Terms(0, 5, 1, 2, 1), Artifact(5, 0, 0, 0), 0, 7, 0)
  const PREPARING := S.FreshPublication(REQUEST, 0)
  const PREPARED := PREPARING.(phase := Prepared, runtimeImage := Some(0), preparedAt := Some(0))
  const PUBLISHING := PREPARED.(phase := Publishing)
  const SIGNED := PUBLISHING.(tx := Some(TX), advertRef := Some(OutRef(TX, 0)), actualDebit := Some(3))
  const PUBLISHED := SIGNED.(phase := Published, publishedAt := Some(0))

  const EXPECTED := AdvertDatum(PublishOffer(SLOT, PUBLISHING), 0, None)
  const COIN := Genesis(0, Output(1, 3, NoDatum))
  const TX := Tx([COIN], [Output(2, 2, EXPECTED)], 1, Some(100), [], None, None)
  const BUILT := C.Built(TX, TX, OutRef(TX, 0))
  const TERMS := C.SignedFrom(0, SLOT, EXPECTED, TX, 3, 0)

  const ADVERT := S.NewAdvert(TERMS, 1)
  const CONFIRMED := ADVERT.(confirmedAt := Some(0))
  const RETIRED := CONFIRMED.(endedAt := Some(0), endReason := Some(Retired))

  // The chain before, with the advert, forked, and with the advert again.
  const EMPTY := ChainState([], 0, 0)
  const WITH := ChainState([Entry(TX, 1, true)], 1, 1)
  const FORKED := ChainState([], 0, 1)
  const AGAIN := ChainState([Entry(TX, 1, true)], 1, 1)

  function At(db: Db, history: seq<ChainState>): World {
    World(db, history, {}, map[], map[], map[], map[])
  }

  function Table(row: Publication): Db { Db(map[0 := row], map[], map[]) }

  function Tables(row: Publication, advert: Advert): Db { Db(map[0 := row], map[FIRST := advert], map[]) }

  lemma TxFacts()
    ensures C.Total(TX.inputs) == 3 && C.Total(TX.collateral) == 0 && C.Paid(TX.outputs[1..]) == 0
    ensures C.AdvertDebit(TX) == 3 && TERMS.walletDebit == 3
    ensures Approved(SLOT, EXPECTED, BUILT, _ => true, 3)
  {
    assert TX.inputs[..0] == [] && TX.outputs[1..] == [];
  }

  // ----- One step at a time -----

  /** A run goes on with one step. */
  lemma GoesOn(ws: seq<World>, step: Step, w: World) returns (ws': seq<World>)
    requires ConfigOk(CONFIG) && Run(CONFIG, ws)
    requires var last := ws[|ws| - 1]; last.history != [] && S.JournalOk(last.db) ==> Next(CONFIG, last, step, w)
    ensures ws' == ws + [w] && Run(CONFIG, ws')
    ensures Inv(CONFIG, ws[|ws| - 1]) && ws[|ws| - 1].history != [] && S.JournalOk(ws[|ws| - 1].db)
  {
    hide Next, Inv, Boots, ConfigOk;
    RunKeeps(CONFIG, ws, |ws| - 1);
    InvMeansStored(CONFIG, ws[|ws| - 1]);
    ws' := ws + [w];
    forall i, j | 0 <= i && j == i + 1 && j < |ws'| ensures Steps(CONFIG, ws'[i], ws'[j]) {
      if j < |ws| {
        assert Steps(CONFIG, ws[i], ws[j]);
      } else {
        assert ws'[i] == ws[|ws| - 1] && ws'[j] == w;
      }
    }
  }

  lemma Begins() returns (ws: seq<World>)
    ensures ConfigOk(CONFIG) && Run(CONFIG, ws) && ws == [At(S.NO_TABLES, [EMPTY])]
  {
    ws := [At(S.NO_TABLES, [EMPTY])];
    InitialBoots(CONFIG, ws[0]);
  }

  lemma Prepares(ws: seq<World>) returns (ws': seq<World>)
    requires ConfigOk(CONFIG) && Run(CONFIG, ws) && ws[|ws| - 1] == At(S.NO_TABLES, [EMPTY])
    ensures Run(CONFIG, ws') && ws'[|ws'| - 1] == At(Table(PUBLISHING), [EMPTY]).(publishOps := map[0 := Signing(3)])
  {
    hide ConfigOk, Run, S.JournalOk, Inv;
    var created := At(Table(PREPARING), [EMPTY]);
    ws' := GoesOn(ws, Publish(0, PublishMove.Prepares(REQUEST), 0), created);
    var prepared := At(Table(PREPARED), [EMPTY]);
    ws' := GoesOn(ws', Publish(0, PrepareEnds(Some(0)), 0), prepared);
    ws' := GoesOn(ws', Publish(0, PublishBegins(3), 0), At(Table(PUBLISHING), [EMPTY]).(publishOps := map[0 := Signing(3)]));
  }

  lemma JournalsIt()
    ensures S.Journal(Table(PUBLISHING), TERMS, 0) == Ok(Tables(SIGNED, ADVERT))
  {
    TxFacts();
    hide C.Total, C.Paid, C.Listed, Approved;
    var db := Table(PUBLISHING);
    assert KeyOf(ADVERT) == FIRST && AdvertChecks(ADVERT) && Accepts(db, InsertAdvert(ADVERT));
    assert S.Signed(PUBLISHING, TERMS, 0) == SIGNED;
    assert db.adverts[FIRST := ADVERT] == map[FIRST := ADVERT];
    assert db.publications[0 := SIGNED] == map[0 := SIGNED];
  }

  lemma Signs(ws: seq<World>) returns (ws': seq<World>)
    requires ConfigOk(CONFIG) && Run(CONFIG, ws)
    requires ws[|ws| - 1] == At(Table(PUBLISHING), [EMPTY]).(publishOps := map[0 := Signing(3)])
    ensures Run(CONFIG, ws') && ws'[|ws'| - 1] == At(Tables(SIGNED, ADVERT), [EMPTY]).(sent := {TX}, publishOps := map[0 := Awaiting(TX)])
  {
    hide ConfigOk, Run, S.JournalOk, Inv, Approved, S.Journal;
    TxFacts();
    JournalsIt();
    var w := At(Tables(SIGNED, ADVERT), [EMPTY]).(publishOps := map[0 := Submitting(TX)]);
    ws' := GoesOn(ws, Publish(0, PublishSigns(None, BUILT, _ => true), 0), w);
    ws' := GoesOn(ws', Publish(0, PublishSubmits, 0), w.(sent := {TX}, publishOps := map[0 := Awaiting(TX)]));
  }

  lemma BlockCarriesIt()
    ensures ChainStep(EMPTY, Extend(1, [Entry(TX, 1, true)]), WITH)
    ensures ChainStep(WITH, Rollback(0, 0), FORKED)
    ensures ChainStep(FORKED, Extend(1, [Entry(TX, 1, true)]), AGAIN)
    ensures Included(WITH, TX) && Unspent(WITH.entries, OutRef(TX, 0)) && !Unspent(FORKED.entries, OutRef(TX, 0))
  {
    var e := Entry(TX, 1, true);
    assert Includable([], e);
    assert [e][..0] == [] && [] + [e] == [e];
    assert e in WITH.entries && Produces(e, 0);
    assert OutRef(TX, 0) !in Consumed(e);
  }

  lemma Confirms(ws: seq<World>) returns (ws': seq<World>)
    requires ConfigOk(CONFIG) && Run(CONFIG, ws)
    requires ws[|ws| - 1] == At(Tables(SIGNED, ADVERT), [EMPTY]).(sent := {TX}, publishOps := map[0 := Awaiting(TX)])
    ensures Run(CONFIG, ws') && ws'[|ws'| - 1] == ON_CHAIN
  {
    hide ConfigOk, Run, S.JournalOk, Inv, ChainStep, Included, Unspent;
    BlockCarriesIt();
    var w := At(Tables(SIGNED, ADVERT), [EMPTY, WITH]).(sent := {TX}, publishOps := map[0 := Awaiting(TX)]);
    assert [EMPTY] + [WITH] == [EMPTY, WITH];
    ws' := GoesOn(ws, ChainMoves(Extend(1, [Entry(TX, 1, true)]), WITH), w);
    ws' := GoesOn(ws', Publish(0, PublishConfirms(1), 0), At(Tables(SIGNED, CONFIRMED), [EMPTY, WITH]).(sent := {TX}));
  }

  const ON_CHAIN := At(Tables(SIGNED, CONFIRMED), [EMPTY, WITH]).(sent := {TX})
  const SERVING := At(Tables(PUBLISHED, CONFIRMED), [EMPTY, WITH]).(sent := {TX}, children := map[0 := FIRST])
  const LOST := SERVING.(history := [EMPTY, WITH, FORKED])

  lemma StartStepBegins()
    requires S.JournalOk(ON_CHAIN.db)
    ensures StartStep(ON_CHAIN, 0, StartBegins(0), 0, ON_CHAIN.(startOps := map[0 := Starting(0, FIRST, 1)]))
  {
    S.PublishServes(ON_CHAIN.db, 0);
    hide S.JournalOk, S.ServingAdvert, S.Adverts;
    assert ON_CHAIN.startOps[0 := Starting(0, FIRST, 1)] == map[0 := Starting(0, FIRST, 1)];
  }

  lemma StartStepConfirms(w: World)
    requires w == ON_CHAIN.(startOps := map[0 := Starting(0, FIRST, 1)]) && S.JournalOk(w.db)
    ensures StartStep(w, 0, StartConfirms(1), 0, ON_CHAIN.(startOps := map[0 := Started(0, FIRST)]))
  {
    BlockCarriesIt();
    hide S.JournalOk, Unspent, ChainStep, Included;
    assert w.history[1] == WITH && w.startOps[0].from == 1;
    assert w.startOps[0 := Started(0, FIRST)] == map[0 := Started(0, FIRST)];
    assert S.ConfirmAdvert(w.db, FIRST, 0) == w.db;
  }

  lemma StartStepEnds(w: World)
    requires w == ON_CHAIN.(startOps := map[0 := Started(0, FIRST)]) && S.JournalOk(w.db)
    ensures StartStep(w, 0, StartEnds, 0, SERVING)
  {
    hide S.JournalOk, Unspent;
    assert FinishStart(w.db, 0, 0) == Tables(PUBLISHED, CONFIRMED);
    assert w.startOps - {0} == map[] && w.children[0 := FIRST] == map[0 := FIRST];
  }

  lemma Publishes(ws: seq<World>) returns (ws': seq<World>)
    requires ConfigOk(CONFIG) && Run(CONFIG, ws) && ws[|ws| - 1] == ON_CHAIN
    ensures Run(CONFIG, ws') && ws'[|ws'| - 1] == SERVING
  {
    hide ConfigOk, Run, S.JournalOk, Inv, StartStep;
    if S.JournalOk(ON_CHAIN.db) {
      StartStepBegins();
    }
    var starting, started := ON_CHAIN.(startOps := map[0 := Starting(0, FIRST, 1)]), ON_CHAIN.(startOps := map[0 := Started(0, FIRST)]);
    ws' := GoesOn(ws, Step.Start(0, StartBegins(0), 0), starting);
    StartStepConfirms(starting);
    StartStepEnds(started);
    ws' := GoesOn(ws', Step.Start(0, StartConfirms(1), 0), started);
    ws' := GoesOn(ws', Step.Start(0, StartEnds, 0), SERVING);
  }

  lemma SettlingReads()
    requires S.JournalOk(LOST.db)
    ensures AdvertStep(CONFIG, LOST, 0, SettleReads(FIRST), 0, LOST.(advertOps := map[0 := Settling(FIRST, 2)]))
  {
    hide S.JournalOk, HasRetirement;
    assert LOST.advertOps[0 := Settling(FIRST, 2)] == map[0 := Settling(FIRST, 2)];
  }

  lemma SettlingEnds(w: World)
    requires w == LOST.(advertOps := map[0 := Settling(FIRST, 2)]) && S.JournalOk(w.db)
    ensures AdvertStep(CONFIG, w, 0, SettleEnds(2, None), 0, LOST.(db := Tables(PUBLISHED, RETIRED)))
    ensures !Sees(w, 2, FIRST)
  {
    BlockCarriesIt();
    hide S.JournalOk, HasRetirement, Unspent, ChainStep, Included;
    assert w.history[2] == FORKED && w.advertOps[0].from == 2;
    assert !Sees(w, 2, FIRST);
    assert w.advertOps - {0} == map[];
    assert S.RetireAdvert(w.db, FIRST, None, 0) == Tables(PUBLISHED, RETIRED);
  }

  lemma SettlingMisses(w: World)
    requires w == LOST.(advertOps := map[0 := Settling(FIRST, 2)]) && S.JournalOk(w.db)
    ensures V.SettlesMissing(CONFIG, w, LOST.(db := Tables(PUBLISHED, RETIRED)), 0, 2, FIRST)
  {
    hide S.JournalOk, Sees, AdvertStep;
    SettlingEnds(w);
    assert Next(CONFIG, w, Adverts(0, SettleEnds(2, None), 0), LOST.(db := Tables(PUBLISHED, RETIRED)));
  }

  lemma Retires(ws: seq<World>) returns (ws': seq<World>)
    requires ConfigOk(CONFIG) && Run(CONFIG, ws) && ws[|ws| - 1] == SERVING
    ensures Run(CONFIG, ws') && |ws'| >= 2 && ws'[|ws'| - 2] == LOST.(advertOps := map[0 := Settling(FIRST, 2)])
    ensures ws'[|ws'| - 1] == LOST.(db := Tables(PUBLISHED, RETIRED))
    ensures V.SettlesMissing(CONFIG, ws'[|ws'| - 2], ws'[|ws'| - 1], 0, 2, FIRST)
  {
    hide ConfigOk, Run, S.JournalOk, Inv, ChainStep, AdvertStep, V.SettlesMissing;
    BlockCarriesIt();
    assert SERVING.history + [FORKED] == LOST.history;
    ws' := GoesOn(ws, ChainMoves(Rollback(0, 0), FORKED), LOST);
    SettlingReads();
    var settling := LOST.(advertOps := map[0 := Settling(FIRST, 2)]);
    ws' := GoesOn(ws', Adverts(0, SettleReads(FIRST), 0), settling);
    SettlingEnds(settling);
    SettlingMisses(settling);
    ws' := GoesOn(ws', Adverts(0, SettleEnds(2, None), 0), LOST.(db := Tables(PUBLISHED, RETIRED)));
  }

  /**
   A whole run that ends wrong: the settling step records the advert as retired
   after a read that missed its output, and afterwards the output is unspent on
   the adopted chain.
   */
  lemma RollbackDefeatsRetiredVerdict() returns (cfg: Config, ws: seq<World>, i: nat)
    ensures ConfigOk(cfg) && Run(cfg, ws) && i + 2 == |ws| - 1
    ensures V.SettlesMissing(cfg, ws[i], ws[i + 1], 0, 2, FIRST)
    ensures FIRST in ws[i + 2].db.adverts && ws[i + 2].db.adverts[FIRST].endReason == Some(Retired)
    ensures ws[i + 2].history != [] && Unspent(Current(ws[i + 2]).entries, ws[i + 2].db.adverts[FIRST].signed.advertRef)
  {
    hide ConfigOk, Run, S.JournalOk, Inv, Unspent, ChainStep, AdvertStep, PublishStep, StartStep, S.Recover, Included, V.SettlesMissing;
    cfg := CONFIG;
    ws := Begins();
    ws := Prepares(ws);
    ws := Signs(ws);
    ws := Confirms(ws);
    ws := Publishes(ws);
    ws := Retires(ws);
    i := |ws| - 2;
    BlockCarriesIt();
    var last := ws[i + 1];
    ws := GoesOn(ws, ChainMoves(Extend(1, [Entry(TX, 1, true)]), AGAIN), last.(history := last.history + [AGAIN]));
  }
}

/**
 The control service and the publisher together, over a network that loses,
 delays and duplicates messages while either side crashes at any step. Every
 request that was ever sent can be delivered at any later time, any number of
 times or never; a reply is any publication record that names the job's terms.
 */
module Handshake {
  import opened Prelude
  import opened Ledger
  import opened PublisherTables
  import C = AdvertCheck
  import S = PublisherStore
  import CS = ControlService
  import CT = ControlStore
  import CI = ControlSafety
  import PS = PublisherService
  import PP = PublisherProtocol
  import PI = PublisherSafety

  datatype Both = Both(c: CS.Control, w: PP.World)

  /** The publisher prepares and publishes only what a delivered request asks for. */
  predicate Delivered(b: Both, step: PP.Step) {
    && (step.Publish? && step.p.Prepares? ==>
          exists r :: r in b.c.sent && r == CS.PrepareRequest(step.id, step.p.n.terms, step.p.n.artifact))
    && (step.Publish? && step.p.PublishBegins? ==>
          && step.id in b.w.db.publications
          && exists r :: r in b.c.sent && r == CS.PublishRequest(step.id, b.w.db.publications[step.id].artifact.sha256, step.p.maxDebit))
  }

  datatype Move = OfControl(step: CS.Step) | OfPublisher(pub: PP.Step)

  ghost predicate Next(cfg: PS.Config, b: Both, m: Move, b': Both)
    requires b.w.history != [] && S.JournalOk(b.w.db)
  {
    match m
    case OfControl(step) => CS.Next(b.c, step, b'.c) && b'.w == b.w
    case OfPublisher(step) => Delivered(b, step) && PP.Next(cfg, b.w, step, b'.w) && b'.c == b.c
  }

  // ----- Which requests stand behind the publisher's state -----

  predicate PrepareSent(c: CS.Control, id: PublicationId, terms: Terms, artifact: Artifact) {
    CS.PrepareRequest(id, terms, artifact) in c.sent
  }

  predicate PublishSent(c: CS.Control, id: PublicationId, sha256: nat, maxDebit: int) {
    maxDebit >= 0 && CS.PublishRequest(id, sha256, maxDebit) in c.sent
  }

  ghost predicate PreparedOnRequest(c: CS.Control, db: Db) {
    forall id :: id in db.publications ==> PrepareSent(c, id, db.publications[id].terms, db.publications[id].artifact)
  }

  ghost predicate SigningOnRequest(b: Both) {
    forall id :: id in b.w.publishOps && b.w.publishOps[id].Signing? ==>
      id in b.w.db.publications && PublishSent(b.c, id, b.w.db.publications[id].artifact.sha256, b.w.publishOps[id].maxDebit)
  }

  ghost predicate SignedOnRequest(c: CS.Control, db: Db) {
    forall id :: AdvertKey(id, 1) in db.adverts ==>
      id in db.publications && PublishSent(c, id, db.publications[id].artifact.sha256, db.adverts[AdvertKey(id, 1)].signed.maxDebit)
  }

  ghost predicate Inv(cfg: PS.Config, b: Both) {
    && CI.Inv(b.c) && PI.Inv(cfg, b.w)
    && PreparedOnRequest(b.c, b.w.db) && SigningOnRequest(b) && SignedOnRequest(b.c, b.w.db)
  }

  // ----- What a publisher step does to the inputs of a publication -----

  /** Terms and artifact of every publication stay, and none is added. */
  ghost predicate SameInputs(db: Db, db': Db) {
    && db'.publications.Keys == db.publications.Keys
    && forall id :: id in db.publications ==>
         db'.publications[id].terms == db.publications[id].terms && db'.publications[id].artifact == db.publications[id].artifact
  }

  /** No publish advert is added. */
  ghost predicate SameFirsts(db: Db, db': Db) {
    forall id :: AdvertKey(id, 1) in db'.adverts ==>
      AdvertKey(id, 1) in db.adverts && db'.adverts[AdvertKey(id, 1)].signed == db.adverts[AdvertKey(id, 1)].signed
  }

  ghost predicate SameSigning(w: PP.World, w': PP.World) {
    forall id :: id in w'.publishOps && w'.publishOps[id].Signing? ==> id in w.publishOps && w'.publishOps[id] == w.publishOps[id]
  }

  lemma UpdateSame(db: Db, id: PublicationId, from: set<Phase>, patch: S.Patch, at: Time)
    ensures var db' := PS.OrSame(db, S.Update(db, id, from, patch, at)); SameInputs(db, db') && SameFirsts(db, db')
  {
  }

  lemma ConfirmSame(db: Db, key: AdvertKey, at: Time)
    ensures SameInputs(db, S.ConfirmAdvert(db, key, at)) && SameFirsts(db, S.ConfirmAdvert(db, key, at))
  {
  }

  lemma ExpireSame(db: Db, key: AdvertKey, at: Time)
    ensures SameInputs(db, S.ExpireAdvert(db, key, at)) && SameFirsts(db, S.ExpireAdvert(db, key, at))
  {
  }

  lemma RetireSame(db: Db, key: AdvertKey, tx: Option<Tx>, at: Time)
    ensures SameInputs(db, S.RetireAdvert(db, key, tx, at)) && SameFirsts(db, S.RetireAdvert(db, key, tx, at))
  {
  }

  lemma EvidenceSame(db: Db, id: PublicationId, confirmed: bool, c: ChainState, at: Time)
    ensures var db' := PS.RecordEvidence(db, id, confirmed, c, at).0; SameInputs(db, db') && SameFirsts(db, db')
  {
    hide SameInputs, SameFirsts, Unspent, PS.Examine;
    NothingSame(db);
    ConfirmSame(db, AdvertKey(id, 1), at);
    ExpireSame(db, AdvertKey(id, 1), at);
  }

  lemma NothingSame(db: Db)
    ensures SameInputs(db, db) && SameFirsts(db, db)
  {
  }

  lemma ReadvertSame(db: Db, t: SignedAdvert)
    requires S.JournalOk(db) && S.JournalReadvert(db, t).Ok?
    ensures SameInputs(db, S.JournalReadvert(db, t).value) && SameFirsts(db, S.JournalReadvert(db, t).value)
  {
    S.NextGenerationIsNext(db, t.publication);
  }

  /** The moves that neither prepare, begin a publish, nor sign it. */
  lemma PublishOtherSame(cfg: PS.Config, w: PP.World, id: PublicationId, m: PP.PublishMove, at: Time, w': PP.World)
    requires w.history != [] && PP.PublishStep(cfg, w, id, m, at, w') && !m.Prepares? && !m.PublishBegins? && !m.PublishSigns?
    ensures SameInputs(w.db, w'.db) && SameFirsts(w.db, w'.db) && SameSigning(w, w')
  {
    hide SameInputs, SameFirsts, Included, S.Update, PS.RecordEvidence, S.ConfirmAdvert;
    var db := w.db;
    NothingSame(db);
    match m
    case PrepareEnds(image) => UpdateSame(db, id, {Preparing}, PP.PreparePatch(image, at), at);
    case ImageRebuilt(rebuilt) => UpdateSame(db, id, {db.publications[id].phase}, S.Patch(None, Some(rebuilt), None, None), at);
    case PublishConfirms(i) => ConfirmSame(db, AdvertKey(id, 1), at);
    case PublishFails =>
      UpdateSame(db, id, {Publishing}, PS.ToPhase(if AdvertKey(id, 1) in db.adverts then ConfirmationPending else Prepared), at);
    case PublishSubmits =>
    case ResolveBegins =>
    case ResolveReads(i) => EvidenceSame(db, id, w.publishOps[id].confirmed, w.history[i], at);
    case ResolveRecords => UpdateSame(db, id, {w.publishOps[id].phase}, S.Patch(w.publishOps[id].to, None, None, None), at);
  }

  lemma AdvertSame(cfg: PS.Config, w: PP.World, target: TargetId, m: PP.AdvertMove, at: Time, w': PP.World)
    requires w.history != [] && S.JournalOk(w.db) && PP.AdvertStep(cfg, w, target, m, at, w')
    ensures SameInputs(w.db, w'.db) && SameFirsts(w.db, w'.db) && w'.publishOps == w.publishOps
  {
    hide S.JournalOk, SameInputs, SameFirsts, Included, Unspent, PP.RetirementApproved, C.AllTo, C.AllFrom, S.JournalReadvert, S.ConfirmAdvert, S.RetireAdvert,
         PS.IsPublished, PP.HasRetirement, PS.SwitchedTo, S.LiveIdentityAdvert, PS.Examine, S.ExpireAdvert, S.NextGeneration;
    var db := w.db;
    NothingSame(db);
    match m
    case ReadvertSigns(built, visible) =>
      var op := w.advertOps[target];
      var publish := db.adverts[op.key].signed;
      ReadvertSame(db, C.SignedFrom(op.key.publication, cfg.slots[publish.target], PP.ReadvertDatum(publish.datum, op.agent), built.tx, op.maxDebit, at));
    case ReadvertConfirms(i) => ConfirmSame(db, w.advertOps[target].key, at);
    case ReadvertResolves(i) =>
      ConfirmSame(db, w.advertOps[target].key, at);
      ExpireSame(db, w.advertOps[target].key, at);
    case SwitchEnds(i) => SwitchSame(db, w.advertOps[target].key, at);
    case SettleEnds(i, retiredBy) => RetireSame(db, w.advertOps[target].key, retiredBy, at);
    case RetireSigns(built, visible) => RetirementSame(db, w'.db);
    case RetireConfirms(i) => RetireSame(db, w.advertOps[target].key, Some(w.advertOps[target].tx), at);
    case _ =>
  }

  lemma SwitchSame(db: Db, key: AdvertKey, at: Time)
    ensures var db' := PS.OrSame(db, S.SwitchAdvert(db, key, at)); SameInputs(db, db') && SameFirsts(db, db')
  {
  }

  lemma RetirementSame(db: Db, db': Db)
    requires db'.publications == db.publications && db'.adverts == db.adverts
    ensures SameInputs(db, db') && SameFirsts(db, db')
  {
  }

  lemma StartSame(w: PP.World, target: TargetId, m: PP.StartMove, at: Time, w': PP.World)
    requires w.history != [] && S.JournalOk(w.db) && PP.StartStep(w, target, m, at, w')
    ensures SameInputs(w.db, w'.db) && SameFirsts(w.db, w'.db) && w'.publishOps == w.publishOps
  {
    hide S.JournalOk, SameInputs, SameFirsts, Unspent, S.ConfirmAdvert, S.Update, S.ServingAdvert, S.Adverts;
    var db := w.db;
    NothingSame(db);
    match m
    case StartConfirms(i) => ConfirmSame(db, w.startOps[target].key, at);
    case StartEnds =>
      var id := w.startOps[target].id;
      var phase := db.publications[id].phase;
      UpdateSame(db, id, {phase}, if phase == Published then PS.NoPatch() else S.Patch(Some(Published), None, None, Some(at)), at);
    case _ =>
  }

  lemma CrashSame(db: Db, at: Time)
    ensures SameInputs(db, S.Recover(db, at)) && SameFirsts(db, S.Recover(db, at))
  {
  }

  // ----- One move keeps the invariant -----

  /** Requests are never unsent, so what they stand behind stays justified. */
  lemma MoreSentKeeps(cfg: PS.Config, b: Both, c': CS.Control)
    requires Inv(cfg, b) && CI.Inv(c') && b.c.sent <= c'.sent
    ensures Inv(cfg, Both(c', b.w))
  {
    hide CI.Inv, PI.Inv;
  }

  lemma ControlSendsMore(c: CS.Control, step: CS.Step, c': CS.Control)
    requires CS.Next(c, step, c')
    ensures c.sent <= c'.sent
  {
    hide CS.IsReviewed, CS.Preparable, CT.Transition, CS.Attempted, CS.RecoveredTables, CS.ClearHanded, CT.InsertEvent, CT.Create, CT.IsNext;
  }

  /** A publisher step that adds no publication, no publish and no signature. */
  lemma SameInputsKeep(cfg: PS.Config, b: Both, w': PP.World)
    requires Inv(cfg, b) && PI.Inv(cfg, w')
    requires SameInputs(b.w.db, w'.db) && SameFirsts(b.w.db, w'.db) && SameSigning(b.w, w')
    ensures Inv(cfg, Both(b.c, w'))
  {
    hide CI.Inv, PI.Inv, PrepareSent, PublishSent;
  }

  lemma PrepareKeeps(cfg: PS.Config, b: Both, id: PublicationId, n: S.NewPublication, at: Time, w': PP.World)
    requires Inv(cfg, b) && PI.Inv(cfg, w') && b.w.history != []
    requires PP.PublishStep(cfg, b.w, id, PP.Prepares(n), at, w') && PrepareSent(b.c, id, n.terms, n.artifact)
    ensures Inv(cfg, Both(b.c, w'))
  {
    hide CI.Inv, PrepareSent, PublishSent, PS.ServiceOk, PI.OpsOk, ChainRun, PI.ExpiredAreDead, PI.SentJournaled;
    assert AdvertKey(id, 1) !in b.w.db.adverts by { UnsignedHasNoAdvert(cfg, b.w, id); }
  }

  lemma UnsignedHasNoAdvert(cfg: PS.Config, w: PP.World, id: PublicationId)
    requires PI.Inv(cfg, w) && (id in w.db.publications ==> w.db.publications[id].tx.None?)
    ensures AdvertKey(id, 1) !in w.db.adverts
  {
    hide PI.OpsOk, ChainRun, PI.ExpiredAreDead, PI.SentJournaled, PS.AdvertsChecked, PS.RetirementsOk;
  }

  lemma BeginKeeps(cfg: PS.Config, b: Both, id: PublicationId, maxDebit: nat, at: Time, w': PP.World)
    requires Inv(cfg, b) && PI.Inv(cfg, w') && b.w.history != []
    requires PP.PublishStep(cfg, b.w, id, PP.PublishBegins(maxDebit), at, w')
    requires id in b.w.db.publications && PublishSent(b.c, id, b.w.db.publications[id].artifact.sha256, maxDebit)
    ensures Inv(cfg, Both(b.c, w'))
  {
    hide CI.Inv, PI.Inv, PrepareSent, PublishSent, S.Update;
    UpdateSame(b.w.db, id, {Prepared}, PS.ToPhase(Publishing), at);
  }

  lemma SignKeeps(cfg: PS.Config, b: Both, id: PublicationId, agent: Option<AgentId>, built: C.Built, visible: OutRef -> bool, at: Time, w': PP.World)
    requires Inv(cfg, b) && PI.Inv(cfg, w') && b.w.history != []
    requires PP.PublishStep(cfg, b.w, id, PP.PublishSigns(agent, built, visible), at, w')
    ensures Inv(cfg, Both(b.c, w'))
  {
    hide CI.Inv, PI.Inv, PrepareSent, PublishSent, PP.Approved, Accepts;
  }

  lemma PublisherKeeps(cfg: PS.Config, b: Both, step: PP.Step, w': PP.World)
    requires PS.ConfigOk(cfg) && Inv(cfg, b) && b.w.history != [] && S.JournalOk(b.w.db)
    requires Delivered(b, step) && PP.Next(cfg, b.w, step, w')
    ensures Inv(cfg, Both(b.c, w')) && PS.Forward(b.w.db, w'.db)
  {
    hide PS.ConfigOk, PS.ServiceOk, PI.OpsOk, CI.Inv, PI.Inv, PP.PublishStep, PP.AdvertStep, PP.StartStep, SameInputs, SameFirsts, PS.Forward, PS.Touches,
         PreparedOnRequest, SigningOnRequest, SignedOnRequest, S.JournalOk, PI.StepTouches, S.Recover, ChainStep;
    PI.NextKeeps(cfg, b.w, step, w');
    NothingSame(b.w.db);
    match step
    case Publish(id, m, at) =>
      match m {
        case Prepares(n) => PrepareKeeps(cfg, b, id, n, at, w');
        case PublishBegins(maxDebit) => BeginKeeps(cfg, b, id, maxDebit, at, w');
        case PublishSigns(agent, built, visible) => SignKeeps(cfg, b, id, agent, built, visible, at, w');
        case _ =>
          PublishOtherSame(cfg, b.w, id, m, at, w');
          SameInputsKeep(cfg, b, w');
      }
    case Adverts(target, a, at) =>
      AdvertSame(cfg, b.w, target, a, at, w');
      SameInputsKeep(cfg, b, w');
    case Start(target, s, at) =>
      StartSame(b.w, target, s, at, w');
      SameInputsKeep(cfg, b, w');
    case ChainMoves(move, next) => SameInputsKeep(cfg, b, w');
    case Crashes(at) =>
      CrashSame(b.w.db, at);
      SameInputsKeep(cfg, b, w');
  }

  lemma NextKeeps(cfg: PS.Config, b: Both, m: Move, b': Both)
    requires PS.ConfigOk(cfg) && Inv(cfg, b) && b.w.history != [] && S.JournalOk(b.w.db) && Next(cfg, b, m, b')
    ensures Inv(cfg, b') && PS.Forward(b.w.db, b'.w.db) && CI.JobsEvolve(b.c.t, b'.c.t)
  {
    hide PS.ConfigOk, CI.Inv, PI.Inv, PS.Forward, CI.JobsEvolve, PreparedOnRequest, SigningOnRequest, SignedOnRequest, S.JournalOk, Delivered, CS.Next, PP.Next;
    match m
    case OfControl(step) =>
      CI.NextKeeps(b.c, step, b'.c);
      ControlSendsMore(b.c, step, b'.c);
      MoreSentKeeps(cfg, b, b'.c);
      PS.ForwardReflexive(b.w.db);
    case OfPublisher(step) =>
      PublisherKeeps(cfg, b, step, b'.w);
      CI.SameKeeps(b.c.t);
  }

  // ----- Whole runs -----

  ghost predicate Follows(cfg: PS.Config, b: Both, b': Both) {
    b.w.history != [] && S.JournalOk(b.w.db) && exists m :: Next(cfg, b, m, b')
  }

  ghost predicate Run(cfg: PS.Config, run: seq<Both>) {
    && run != [] && CS.Initial(run[0].c) && PP.Initial(run[0].w)
    && forall i, j :: 0 <= i && j == i + 1 && j < |run| ==> Follows(cfg, run[i], run[j])
  }

  lemma InitialOk(cfg: PS.Config, b: Both)
    requires CS.Initial(b.c) && PP.Initial(b.w)
    ensures Inv(cfg, b)
  {
    hide PI.Inv, CI.Inv;
    CI.InitialOk(b.c);
    PI.InitialBoots(cfg, b.w);
    PI.BootsOk(cfg, b.w);
  }

  lemma {:induction false} RunKeeps(cfg: PS.Config, run: seq<Both>, i: nat)
    requires PS.ConfigOk(cfg) && Run(cfg, run) && i < |run|
    ensures Inv(cfg, run[i])
  {
    hide Inv, Next, CS.Initial, PP.Initial, PS.ConfigOk, PS.Forward, CI.JobsEvolve, S.JournalOk;
    if i == 0 {
      InitialOk(cfg, run[0]);
    } else {
      RunKeeps(cfg, run, i - 1);
      assert Follows(cfg, run[i - 1], run[i]);
      var m :| Next(cfg, run[i - 1], m, run[i]);
      NextKeeps(cfg, run[i - 1], m, run[i]);
    }
  }

  lemma {:induction false} RunGoesForward(cfg: PS.Config, run: seq<Both>, i: nat, j: nat)
    requires PS.ConfigOk(cfg) && Run(cfg, run) && i <= j < |run|
    ensures PS.Forward(run[i].w.db, run[j].w.db) && CI.JobsEvolve(run[i].c.t, run[j].c.t)
    decreases j
  {
    hide Inv, Next, CS.Initial, PP.Initial, PS.ConfigOk, PS.Forward, CI.JobsEvolve, S.JournalOk;
    if i == j {
      PS.ForwardReflexive(run[i].w.db);
      CI.SameKeeps(run[i].c.t);
    } else {
      RunGoesForward(cfg, run, i, j - 1);
      RunKeeps(cfg, run, j - 1);
      assert Follows(cfg, run[j - 1], run[j]);
      var m :| Next(cfg, run[j - 1], m, run[j]);
      NextKeeps(cfg, run[j - 1], m, run[j]);
      PS.ForwardTransitive(run[i].w.db, run[j - 1].w.db, run[j].w.db);
      CI.EvolveTransitive(run[i].c.t, run[j - 1].c.t, run[j].c.t);
    }
  }

  /**
   Whatever the network and the crashes do, at most one generation-1 transaction
   is ever signed into the journal for a job: two that are seen at any two times
   are the same.
   */
  lemma SignedAtMostOncePerJob(cfg: PS.Config, run: seq<Both>, i: nat, j: nat, id: CT.JobId)
    requires PS.ConfigOk(cfg) && Run(cfg, run) && i < |run| && j < |run|
    requires AdvertKey(id, 1) in run[i].w.db.adverts && AdvertKey(id, 1) in run[j].w.db.adverts
    ensures run[i].w.db.adverts[AdvertKey(id, 1)].signed == run[j].w.db.adverts[AdvertKey(id, 1)].signed
  {
    hide Run, PS.ConfigOk, CI.JobsEvolve;
    if i <= j {
      RunGoesForward(cfg, run, i, j);
      PI.KeptRowsStay(run[i].w.db, run[j].w.db);
    } else {
      RunGoesForward(cfg, run, j, i);
      PI.KeptRowsStay(run[j].w.db, run[i].w.db);
    }
  }

  /** In state `j` of a run and in every later one the transaction is in the publisher's journal. */
  ghost predicate JournaledFrom(run: seq<Both>, j: nat, tx: Tx) {
    forall k :: j <= k < |run| ==> PP.IsJournaled(run[k].w.db, tx)
  }

  /**
   In the composed system, too, a transaction that was submitted was in the
   journal in an earlier state in which it had not been submitted, and stays there.
   */
  lemma {:induction false} BroadcastWasJournaledEarlier(cfg: PS.Config, run: seq<Both>, i: nat, tx: Tx)
    requires PS.ConfigOk(cfg) && Run(cfg, run) && i < |run| && tx in run[i].w.sent
    ensures exists j :: 0 <= j < i && tx !in run[j].w.sent && JournaledFrom(run, j, tx)
  {
    hide Inv, PS.ConfigOk, PP.Next, CS.Next, PP.Initial, CS.Initial, PS.Forward, CI.JobsEvolve, S.JournalOk, PP.IsJournaled, Delivered;
    if i == 0 {
      NothingSentFirst(run[0].w);
    } else if tx in run[i - 1].w.sent {
      BroadcastWasJournaledEarlier(cfg, run, i - 1, tx);
    } else {
      RunKeeps(cfg, run, i - 1);
      assert Follows(cfg, run[i - 1], run[i]);
      var m :| Next(cfg, run[i - 1], m, run[i]);
      InvMeansPublisher(cfg, run[i - 1]);
      PI.SubmitsOnlyJournaled(cfg, run[i - 1].w, m.pub, run[i].w, tx);
      forall k | i - 1 <= k < |run| ensures PP.IsJournaled(run[k].w.db, tx) {
        RunGoesForward(cfg, run, i - 1, k);
        PI.ForwardKeepsJournaled(run[i - 1].w.db, run[k].w.db, tx);
      }
      assert JournaledFrom(run, i - 1, tx);
    }
  }

  lemma NothingSentFirst(w: PP.World)
    requires PP.Initial(w)
    ensures w.sent == {}
  {
  }

  lemma InvMeansPublisher(cfg: PS.Config, b: Both)
    requires Inv(cfg, b)
    ensures PI.Inv(cfg, b.w)
  {
  }

  /**
   The signed publish advert is for an artifact that an operator approved in the
   control service and that is still the approved one, and its worst-case debit
   is within an approval that the control service recorded before it sent it.
   */
  ghost predicate ApprovedAndSigned(b: Both, id: CT.JobId) {
    && AdvertKey(id, 1) in b.w.db.adverts && id in b.w.db.publications && id in b.c.t.jobs
    && var job, p, s := b.c.t.jobs[id], b.w.db.publications[id], b.w.db.adverts[AdvertKey(id, 1)].signed;
       && job.state == CT.Approved && job.artifact == Some(p.artifact)
       && job.review.Some? && job.review.value.artifactSha256 == p.artifact.sha256
       && p.terms.artifactSha256 == p.artifact.sha256
       && C.Exposure(s.walletDebit, C.Collateral(s.tx)) <= s.maxDebit
       && PublishSent(b.c, id, p.artifact.sha256, s.maxDebit)
  }

  /** Every signed publish advert was approved. */
  lemma SignatureWasApproved(cfg: PS.Config, run: seq<Both>, i: nat, id: CT.JobId)
    requires PS.ConfigOk(cfg) && Run(cfg, run) && i < |run| && AdvertKey(id, 1) in run[i].w.db.adverts
    ensures ApprovedAndSigned(run[i], id)
  {
    hide Run, PS.ConfigOk, CI.BuildsOk, CI.OpsOk, PI.OpsOk, PI.ExpiredAreDead, PI.SentJournaled, ChainRun;
    RunKeeps(cfg, run, i);
    var c, db := run[i].c, run[i].w.db;
    assert PrepareSent(c, id, db.publications[id].terms, db.publications[id].artifact);
    assert CI.RequestOk(c.t, CS.PrepareRequest(id, db.publications[id].terms, db.publications[id].artifact));
    assert CI.JobOk(c.t.jobs[id]);
    PS.AdvertRowFacts(cfg, db, AdvertKey(id, 1));
  }

  lemma RetirementPaysWallet(cfg: PS.Config, db: Db, tx: Tx)
    requires PS.ServiceOk(cfg, db) && tx in db.retirements
    ensures exists t :: t in cfg.slots && C.AllTo(tx.outputs, cfg.slots[t].wallet)
  {
    hide PS.AdvertsChecked, PS.PublishedConfirmed, PS.LaterArePublished, C.AllTo;
    PI.RetirementTxIsKey(cfg, db, tx);
    assert PS.RetirementOk(cfg, db, db.retirements[tx]);
  }

  /** A retirement pays the slot wallet only, so it is no advert transaction. */
  lemma RetirementIsNoAdvert(cfg: PS.Config, db: Db, key: AdvertKey)
    requires PS.ConfigOk(cfg) && PS.ServiceOk(cfg, db) && key in db.adverts
    ensures db.adverts[key].signed.tx !in db.retirements
  {
    hide S.JournalOk, PS.PublishedConfirmed, PS.LaterArePublished, PS.RetirementsOk;
    var tx := db.adverts[key].signed.tx;
    assert PS.AdvertRowChecked(cfg, db.adverts[key].signed);
    assert tx.outputs[0] in tx.outputs;
    if tx in db.retirements {
      RetirementPaysWallet(cfg, db, tx);
    }
  }

  /** The row that journaled a publish advert's transaction earlier is the publish advert's own. */
  lemma JournaledPublishIsOwn(cfg: PS.Config, w: PP.World, w': PP.World, key: AdvertKey)
    requires PS.ConfigOk(cfg) && PS.ServiceOk(cfg, w'.db) && PS.Forward(w.db, w'.db) && key in w'.db.adverts
    requires PP.IsJournaled(w.db, w'.db.adverts[key].signed.tx)
    ensures key in w.db.adverts
  {
    hide PS.ConfigOk, PS.AdvertsChecked, PS.RetirementsOk, PS.PublishedConfirmed, PS.LaterArePublished;
    RetirementIsNoAdvert(cfg, w'.db, key);
    assert RetirementsKept(w.db.retirements, w'.db.retirements) && AdvertsKept(w.db.adverts, w'.db.adverts);
  }

  /** Every publish advert that was submitted had been signed and approved in an earlier state. */
  lemma BroadcastAdvertWasApproved(cfg: PS.Config, run: seq<Both>, i: nat, id: CT.JobId)
    requires PS.ConfigOk(cfg) && Run(cfg, run) && i < |run| && AdvertKey(id, 1) in run[i].w.db.adverts
    requires run[i].w.db.adverts[AdvertKey(id, 1)].signed.tx in run[i].w.sent
    ensures exists j ::
      && 0 <= j < i && ApprovedAndSigned(run[j], id)
      && run[j].w.db.adverts[AdvertKey(id, 1)].signed == run[i].w.db.adverts[AdvertKey(id, 1)].signed
      && run[i].w.db.adverts[AdvertKey(id, 1)].signed.tx !in run[j].w.sent
  {
    hide Run, PS.ConfigOk, ApprovedAndSigned, PS.Forward, CI.JobsEvolve, PS.ServiceOk, CI.Inv, PreparedOnRequest, SigningOnRequest, SignedOnRequest,
         PI.OpsOk, PI.ExpiredAreDead, PI.SentJournaled, ChainRun, PP.IsJournaled;
    var key, tx := AdvertKey(id, 1), run[i].w.db.adverts[AdvertKey(id, 1)].signed.tx;
    BroadcastWasJournaledEarlier(cfg, run, i, tx);
    var j :| 0 <= j < i && tx !in run[j].w.sent && JournaledFrom(run, j, tx);
    RunKeeps(cfg, run, i);
    RunGoesForward(cfg, run, j, i);
    JournaledPublishIsOwn(cfg, run[j].w, run[i].w, key);
    SignatureWasApproved(cfg, run, j, id);
    SignedAtMostOncePerJob(cfg, run, j, i, id);
  }
}

/**
 What the publisher can lose over a whole run: on any chain the node adopts, the
 journaled transactions of a slot cost its wallet at most the sum of the
 approvals that an operator gave for them, failed scripts included.
 */
module PublisherDebits {
  import opened Prelude
  import opened Ledger
  import opened PublisherTables
  import C = AdvertCheck
  import S = PublisherStore
  import opened PublisherService
  import opened PublisherProtocol
  import opened PublisherSafety

  /** A journaled advert costs exactly its recorded debit when it succeeds, and on script failure no more than its approval exactly when that is covered. */
  lemma AdvertRowCosts(cfg: Config, s: SignedAdvert, e: Entry)
    requires ConfigOk(cfg) && AdvertRowChecked(cfg, s) && e.tx == s.tx && (!e.ok ==> e.tx.collateral != [])
    requires C.CollateralSum(e.tx)
    ensures e.ok ==> C.BalanceChange(e, cfg.slots[s.target].wallet) == -s.walletDebit
    ensures -C.BalanceChange(e, cfg.slots[s.target].wallet) <= s.maxDebit <==>
      e.ok || C.FailureCovered(e.tx, cfg.slots[s.target].wallet, s.maxDebit)
  {
    var wallet := cfg.slots[s.target].wallet;
    if e.ok {
      C.FirstOutputApart(e.tx.outputs, wallet);
      C.AllPaidTo(e.tx.outputs[1..], wallet);
      C.AllTakenFrom(e.tx.inputs, wallet);
    } else {
      C.FailureLossExactly(wallet, s.tx, s.maxDebit, e);
    }
  }

  lemma RetirementRowCosts(cfg: Config, advert: SignedAdvert, r: SignedRetirement, e: Entry)
    requires ConfigOk(cfg) && AdvertRowChecked(cfg, advert) && RetirementChecked(cfg, advert, r)
    requires e.tx == r.tx && NoDuplicates(e.tx.inputs) && (!e.ok ==> e.tx.collateral != [])
    requires C.CollateralSum(e.tx)
    ensures e.ok ==> C.BalanceChange(e, cfg.slots[advert.target].wallet) == -r.walletDebit
    ensures -C.BalanceChange(e, cfg.slots[advert.target].wallet) <= r.maxDebit <==>
      e.ok || C.FailureCovered(e.tx, cfg.slots[advert.target].wallet, r.maxDebit)
  {
    var wallet := cfg.slots[advert.target].wallet;
    assert !C.At(advert.advertRef, wallet);
    if e.ok {
      C.OthersAre(e.tx.inputs, advert.advertRef);
      C.AdvertApart(e.tx.inputs, advert.advertRef, wallet);
      C.AllPaidTo(e.tx.outputs, wallet);
    } else {
      C.FailureLossExactly(wallet, r.tx, r.maxDebit, e);
    }
  }

  // ----- Sums -----

  ghost function Sum(m: map<Tx, int>): int
    decreases |m|
  {
    if m == map[] then 0
    else
      var k :| k in m;
      m[k] + Sum(m - {k})
  }

  lemma {:induction false} SumSplits(m: map<Tx, int>, k: Tx)
    requires k in m
    ensures Sum(m) == m[k] + Sum(m - {k})
    decreases |m|
  {
    var j :| j in m && Sum(m) == m[j] + Sum(m - {j});
    if j != k {
      SumSplits(m - {j}, k);
      SumSplits(m - {k}, j);
      assert m - {j} - {k} == m - {k} - {j};
    }
  }

  lemma {:induction false} SumNonNegative(m: map<Tx, int>)
    requires forall k :: k in m ==> m[k] >= 0
    ensures Sum(m) >= 0
    decreases |m|
  {
    if m != map[] {
      var k :| k in m && Sum(m) == m[k] + Sum(m - {k});
      SumNonNegative(m - {k});
    }
  }

  /** What the entries whose transaction is in `txs` cost the wallet. */
  ghost function Cost(entries: seq<Entry>, txs: set<Tx>, wallet: Address): int {
    if entries == [] then 0
    else
      var front, last := entries[..|entries| - 1], entries[|entries| - 1];
      Cost(front, txs, wallet) - (if last.tx in txs then C.BalanceChange(last, wallet) else 0)
  }

  /** Transactions enter a chain once, so bounds on each entry add up. */
  lemma {:induction false} CostWithinSum(entries: seq<Entry>, txs: set<Tx>, wallet: Address, bound: map<Tx, int>)
    requires ValidEntries(entries) && forall k :: k in bound ==> bound[k] >= 0
    requires forall e :: e in entries && e.tx in txs ==> e.tx in bound && -C.BalanceChange(e, wallet) <= bound[e.tx]
    ensures Cost(entries, txs, wallet) <= Sum(bound)
  {
    if entries == [] {
      SumNonNegative(bound);
    } else {
      var n := |entries| - 1;
      var front, last := entries[..n], entries[n];
      forall i | 0 <= i < n ensures Includable(front[..i], front[i]) {
        assert Includable(entries[..i], entries[i]) && front[..i] == entries[..i];
      }
      if last.tx in txs {
        forall e | e in front && e.tx in txs ensures e.tx in bound - {last.tx} && -C.BalanceChange(e, wallet) <= (bound - {last.tx})[e.tx] {
          var i :| 0 <= i < n && entries[i] == e;
          TransactionEntersOnce(entries, i, n);
        }
        CostWithinSum(front, txs, wallet, bound - {last.tx});
        SumSplits(bound, last.tx);
      } else {
        CostWithinSum(front, txs, wallet, bound);
      }
    }
  }

  // ----- The journaled transactions of a slot and their approvals -----

  ghost function AdvertTxs(db: Db, t: TargetId): set<Tx> {
    set k | k in db.adverts && db.adverts[k].signed.target == t :: db.adverts[k].signed.tx
  }

  ghost function RetirementTxs(db: Db, t: TargetId): set<Tx> {
    set x | x in db.retirements && InSlot(db, db.retirements[x].signed.key, t)
  }

  ghost function SlotTxs(db: Db, t: TargetId): set<Tx> {
    AdvertTxs(db, t) + RetirementTxs(db, t)
  }

  ghost function AdvertOf(db: Db, t: TargetId, tx: Tx): (k: AdvertKey)
    requires tx in AdvertTxs(db, t)
    ensures InSlot(db, k, t) && db.adverts[k].signed.tx == tx
  {
    var k :| k in db.adverts && db.adverts[k].signed.target == t && db.adverts[k].signed.tx == tx;
    k
  }

  ghost function Approval(db: Db, t: TargetId, tx: Tx): int
    requires tx in SlotTxs(db, t)
  {
    if tx in RetirementTxs(db, t) then db.retirements[tx].signed.maxDebit
    else db.adverts[AdvertOf(db, t, tx)].signed.maxDebit
  }

  ghost function Approvals(db: Db, t: TargetId): map<Tx, int> {
    map tx | tx in SlotTxs(db, t) :: Approval(db, t, tx)
  }

  /** The ledger's sum rule; and where a script failed, what the check does not read was in order. */
  ghost predicate CollateralRules(c: ChainState, db: Db, t: TargetId, wallet: Address) {
    forall e :: e in c.entries && e.tx in SlotTxs(db, t) ==>
      C.CollateralSum(e.tx) && (!e.ok ==> C.FailureCovered(e.tx, wallet, Approval(db, t, e.tx)))
  }

  lemma EntryWithinApproval(cfg: Config, db: Db, c: ChainState, t: TargetId, e: Entry)
    requires ConfigOk(cfg) && ServiceOk(cfg, db) && ValidChain(c) && t in cfg.slots
    requires e in c.entries && e.tx in SlotTxs(db, t) && C.CollateralSum(e.tx)
    requires !e.ok ==> C.FailureCovered(e.tx, cfg.slots[t].wallet, Approval(db, t, e.tx))
    ensures -C.BalanceChange(e, cfg.slots[t].wallet) <= Approval(db, t, e.tx)
  {
    hide ConfigOk, AdvertRowChecked, RetirementChecked, PublishedConfirmed, LaterArePublished, S.JournalOk, C.CollateralSum, C.FailureCovered, C.BalanceChange, Includable;
    EntryIsIncludable(c, e);
    if e.tx in RetirementTxs(db, t) {
      var r := db.retirements[e.tx];
      assert RetirementOk(cfg, db, r);
      RetirementTxIsKey(cfg, db, e.tx);
      RetirementRowCosts(cfg, db.adverts[r.signed.key].signed, r.signed, e);
    } else {
      AdvertRowCosts(cfg, db.adverts[AdvertOf(db, t, e.tx)].signed, e);
    }
  }

  lemma ApprovalsNonNegative(cfg: Config, db: Db, t: TargetId, tx: Tx)
    requires ServiceOk(cfg, db) && tx in SlotTxs(db, t)
    ensures Approval(db, t, tx) >= 0
  {
    hide PublishedConfirmed, LaterArePublished, S.JournalOk, C.BalanceChange;
    if tx in RetirementTxs(db, t) {
      assert RetirementOk(cfg, db, db.retirements[tx]);
    } else {
      AdvertRowFacts(cfg, db, AdvertOf(db, t, tx));
    }
  }

  /**
   On the chain a node has adopted at any point of any run, the journaled
   transactions of a slot have cost its wallet at most the sum of the approvals.
   */
  lemma LossWithinApprovals(cfg: Config, ws: seq<World>, i: nat, t: TargetId)
    requires ConfigOk(cfg) && Run(cfg, ws) && i < |ws| && t in cfg.slots && ws[i].history != []
    requires CollateralRules(Current(ws[i]), ws[i].db, t, cfg.slots[t].wallet)
    ensures Cost(Current(ws[i]).entries, SlotTxs(ws[i].db, t), cfg.slots[t].wallet) <= Sum(Approvals(ws[i].db, t))
  {
    hide Run, ConfigOk, ServiceOk, OpsOk, ExpiredAreDead, SentJournaled, C.CollateralSum, C.FailureCovered, C.BalanceChange, SlotTxs, Approval, Cost, Sum;
    RunKeeps(cfg, ws, i);
    var w := ws[i];
    var c, txs, wallet := Current(w), SlotTxs(w.db, t), cfg.slots[t].wallet;
    RunStaysValid(w.history, |w.history| - 1);
    forall e | e in c.entries && e.tx in txs
      ensures e.tx in Approvals(w.db, t) && -C.BalanceChange(e, wallet) <= Approvals(w.db, t)[e.tx]
    {
      EntryWithinApproval(cfg, w.db, c, t, e);
    }
    forall tx | tx in txs ensures Approval(w.db, t, tx) >= 0 {
      ApprovalsNonNegative(cfg, w.db, t, tx);
    }
    CostWithinSum(c.entries, txs, wallet, Approvals(w.db, t));
  }
}

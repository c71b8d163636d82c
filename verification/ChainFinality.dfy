/**
 What a node that can still roll back knows for good: which spends stay on every
 chain it can come to adopt, and which transactions stay off all of them.
 */
module ChainFinality {
  import opened Prelude
  import opened Ledger

  /** No rollback leads behind this slot. */
  function FinalSlot(c: ChainState): Slot {
    if c.highest < ROLLBACK_SLOTS then 0 else c.highest - ROLLBACK_SLOTS
  }

  /** The first `n` entries are in blocks that no rollback reaches. */
  predicate Buried(c: ChainState, n: nat) {
    n <= |c.entries| && forall i :: 0 <= i < n ==> c.entries[i].slot <= FinalSlot(c)
  }

  // ----- What stays -----

  lemma StepKeepsBuried(c: ChainState, move: ChainMove, c': ChainState, n: nat)
    requires ValidChain(c) && ChainStep(c, move, c') && Buried(c, n)
    ensures Buried(c', n) && c'.entries[..n] == c.entries[..n] && FinalSlot(c) <= FinalSlot(c')
  {
    hide ValidEntries;
    if move.Rollback? && move.keep < |c.entries| {
      assert c.entries[move.keep].slot > move.point;
    }
  }

  lemma {:induction false} RunKeepsBuried(run: seq<ChainState>, j: nat, n: nat)
    requires ChainRun(run) && j < |run| && Buried(run[0], n)
    ensures Buried(run[j], n) && run[j].entries[..n] == run[0].entries[..n] && FinalSlot(run[0]) <= FinalSlot(run[j])
  {
    hide ChainStep, ValidChain, Buried;
    if j == 0 {
      assert n <= |run[0].entries| by { BuriedFits(run[0], n); }
    } else {
      RunKeepsBuried(run, j - 1, n);
      RunStaysValid(run, j - 1);
      assert Follows(run[j - 1], run[j]);
      var move :| ChainStep(run[j - 1], move, run[j]);
      StepKeepsBuried(run[j - 1], move, run[j], n);
    }
  }

  lemma BuriedFits(c: ChainState, n: nat)
    requires Buried(c, n)
    ensures n <= |c.entries|
  {
  }

  lemma BuriedStays(c: ChainState, c': ChainState, n: nat)
    requires Leads(c, c') && Buried(c, n)
    ensures n <= |c'.entries| && c'.entries[..n] == c.entries[..n]
  {
    hide Buried, ValidChain, Follows;
    var run :| ChainRun(run) && run[0] == c && run[|run| - 1] == c';
    RunKeepsBuried(run, |run| - 1, n);
    BuriedFits(c', n);
  }

  // ----- What can be undone -----

  /** How many entries are in blocks up to `point`. */
  function KeepUpTo(entries: seq<Entry>, point: Slot): (keep: nat)
    ensures keep <= |entries|
    ensures keep > 0 ==> entries[keep - 1].slot <= point
    ensures forall i :: keep <= i < |entries| ==> entries[i].slot > point
  {
    if entries == [] || entries[|entries| - 1].slot <= point then |entries|
    else KeepUpTo(entries[..|entries| - 1], point)
  }

  /** A node rolls back to `point` and adopts one block in the next slot. */
  lemma ForkFrom(c: ChainState, point: Slot, body: seq<Entry>) returns (c': ChainState)
    requires ValidChain(c) && FinalSlot(c) <= point <= c.tip
    requires forall e :: e in body ==> e.slot == point + 1
    requires ValidEntries(c.entries[..KeepUpTo(c.entries, point)] + body)
    ensures Leads(c, c') && c'.entries == c.entries[..KeepUpTo(c.entries, point)] + body
  {
    hide ValidEntries, Leads;
    var keep := KeepUpTo(c.entries, point);
    var back := ChainState(c.entries[..keep], point, c.highest);
    assert ChainStep(c, Rollback(point, keep), back);
    c' := ChainState(back.entries + body, point + 1, if c.highest < point + 1 then point + 1 else c.highest);
    assert ChainStep(back, Extend(point + 1, body), c');
    TwoStepsLead(c, Rollback(point, keep), back, Extend(point + 1, body), c');
  }

  lemma TwoStepsLead(a: ChainState, first: ChainMove, b: ChainState, second: ChainMove, c: ChainState)
    requires ValidChain(a) && ChainStep(a, first, b) && ChainStep(b, second, c)
    ensures Leads(a, c)
  {
    hide ValidChain, ChainStep;
    assert Follows(a, b) && Follows(b, c);
    assert ChainRun([a, b, c]);
  }

  /** A node can return to what its chain was just before an entry that is not buried. */
  lemma ReturnBefore(c: ChainState, n: nat) returns (c': ChainState)
    requires ValidChain(c) && n < |c.entries| && FinalSlot(c) < c.entries[n].slot
    ensures Leads(c, c') && c'.entries == c.entries[..n]
  {
    hide *;
    EntryFits(c, n);
    KeptIsBefore(c.entries, n);
    var keep := KeepUpTo(c.entries, c.entries[n].slot - 1);
    TakeJoins(c.entries, keep, n);
    PrefixIsValid(c.entries, n);
    c' := ForkFrom(c, c.entries[n].slot - 1, c.entries[keep..n]);
  }

  lemma TakeJoins(entries: seq<Entry>, keep: nat, n: nat)
    requires keep <= n <= |entries|
    ensures entries[..keep] + entries[keep..n] == entries[..n]
  {
  }

  lemma EntryFits(c: ChainState, n: nat)
    requires ValidChain(c) && n < |c.entries|
    ensures c.entries[n].slot <= c.tip && ValidEntries(c.entries) && SlotsRise(c.entries)
  {
    assert c.entries[n] in c.entries;
  }

  /** Between what is kept and the entry every block has the entry's slot. */
  lemma KeptIsBefore(entries: seq<Entry>, n: nat)
    requires SlotsRise(entries) && n < |entries| && entries[n].slot > 0
    ensures var keep := KeepUpTo(entries, entries[n].slot - 1);
      keep <= n && forall e :: e in entries[keep..n] ==> e.slot == entries[n].slot
  {
  }

  lemma PrefixIsValid(entries: seq<Entry>, n: nat)
    requires ValidEntries(entries) && n <= |entries|
    ensures ValidEntries(entries[..n])
  {
    forall i | 0 <= i < n ensures Includable(entries[..n][..i], entries[..n][i]) {
      assert entries[..n][..i] == entries[..i];
    }
  }

  /** An output that a later entry spends is unspent until then. */
  lemma UnspentBefore(entries: seq<Entry>, n: nat, ref: OutRef)
    requires ValidEntries(entries) && n < |entries| && ref in Consumed(entries[n])
    ensures Unspent(entries[..n], ref)
  {
    assert Includable(entries[..n], entries[n]);
  }

  /** The output is unspent on no chain that the node can come to adopt. */
  ghost predicate GoneFrom(c: ChainState, ref: OutRef) {
    forall c' :: Leads(c, c') ==> !Unspent(c'.entries, ref)
  }

  /** A spend stays on every later chain exactly when its block is behind the deepest rollback. */
  lemma SpendStaysExactly(c: ChainState, n: nat, ref: OutRef)
    requires ValidChain(c) && n < |c.entries| && ref in Consumed(c.entries[n])
    ensures GoneFrom(c, ref) <==> c.entries[n].slot <= FinalSlot(c)
  {
    hide ValidEntries, Includable, Consumed;
    if c.entries[n].slot <= FinalSlot(c) {
      forall c' | Leads(c, c') ensures !Unspent(c'.entries, ref) {
        BuriedStays(c, c', n + 1);
        assert c'.entries[..n + 1][n] == c.entries[n];
        assert c'.entries[n] in c'.entries;
      }
    } else {
      var c' := ReturnBefore(c, n);
      UnspentBefore(c.entries, n, ref);
    }
  }

  // ----- What never enters -----

  lemma {:induction false} RunKeepsOut(run: seq<ChainState>, j: nat, tx: Tx)
    requires ChainRun(run) && j < |run| && !Included(run[0], tx)
    requires tx.validUntil.Some? && tx.validUntil.value <= FinalSlot(run[0]) + 1
    ensures !Included(run[j], tx)
  {
    hide ChainStep, ValidChain;
    if j > 0 {
      RunKeepsOut(run, j - 1, tx);
      RunStaysValid(run, j - 1);
      RunKeepsBuried(run, j - 1, 0);
      assert Follows(run[j - 1], run[j]);
      var move :| ChainStep(run[j - 1], move, run[j]);
      StepKeepsOut(run[j - 1], move, run[j], tx);
    }
  }

  lemma StepKeepsOut(c: ChainState, move: ChainMove, c': ChainState, tx: Tx)
    requires ValidChain(c) && ChainStep(c, move, c') && !Included(c, tx)
    requires tx.validUntil.Some? && tx.validUntil.value <= FinalSlot(c) + 1
    ensures !Included(c', tx)
  {
    forall e | e in c'.entries && e !in c.entries ensures InTime(e.tx, e.slot) && e.slot > FinalSlot(c) {
      var k :| 0 <= k < |c'.entries| && c'.entries[k] == e;
      assert Includable(c'.entries[..k], e);
    }
  }

  /** The same transactions in the same order, each with the same outcome. */
  predicate SameTxs(a: seq<Entry>, b: seq<Entry>) {
    |a| == |b| && forall i :: 0 <= i < |a| ==> a[i].tx == b[i].tx && a[i].ok == b[i].ok
  }

  lemma SameTxsSpent(a: seq<Entry>, b: seq<Entry>, ref: OutRef)
    requires SameTxs(a, b) && Spent(a, ref)
    ensures Spent(b, ref)
  {
    var e :| e in a && ref in Consumed(e);
    var i :| 0 <= i < |a| && a[i] == e;
    assert b[i] in b && Consumed(b[i]) == Consumed(e);
  }

  lemma SameTxsCreated(a: seq<Entry>, b: seq<Entry>, ref: OutRef)
    requires SameTxs(a, b) && Created(a, ref)
    ensures Created(b, ref)
  {
    if ref.OutRef? {
      var e :| e in a && e.tx == ref.tx && Produces(e, ref.index);
      var i :| 0 <= i < |a| && a[i] == e;
      assert b[i] in b && b[i].tx == ref.tx && Produces(b[i], ref.index);
    }
  }

  lemma SameTxsSameOutputs(a: seq<Entry>, b: seq<Entry>, ref: OutRef)
    requires SameTxs(a, b)
    ensures Created(a, ref) <==> Created(b, ref)
    ensures Spent(a, ref) <==> Spent(b, ref)
  {
    hide Created, Spent;
    if Created(a, ref) { SameTxsCreated(a, b, ref); }
    if Created(b, ref) { SameTxsCreated(b, a, ref); }
    if Spent(a, ref) { SameTxsSpent(a, b, ref); }
    if Spent(b, ref) { SameTxsSpent(b, a, ref); }
  }

  function Earlier(entries: seq<Entry>, slot: Slot): (r: seq<Entry>)
    ensures SameTxs(entries, r)
    ensures forall e :: e in r ==> e.slot == slot
  {
    seq(|entries|, i requires 0 <= i < |entries| => Entry(entries[i].tx, slot, entries[i].ok))
  }

  /** Entries that follow a prefix can as well be in one earlier block. */
  lemma EarlierIsValid(entries: seq<Entry>, keep: nat, slot: Slot)
    requires ValidEntries(entries) && keep <= |entries| && forall i :: keep <= i < |entries| ==> slot <= entries[i].slot
    ensures ValidEntries(entries[..keep] + Earlier(entries[keep..], slot))
    ensures SameTxs(entries, entries[..keep] + Earlier(entries[keep..], slot))
  {
    var moved := entries[..keep] + Earlier(entries[keep..], slot);
    assert SameTxs(entries, moved);
    forall i | 0 <= i < |moved| ensures Includable(moved[..i], moved[i]) {
      assert Includable(entries[..i], entries[i]);
      assert SameTxs(entries[..i], moved[..i]);
      forall r | r in entries[i].tx.inputs || r in entries[i].tx.collateral ensures Unspent(moved[..i], r) {
        SameTxsSameOutputs(entries[..i], moved[..i], r);
      }
    }
  }

  lemma SpentMeansCreated(c: ChainState, ref: OutRef)
    requires ValidChain(c) && Spent(c.entries, ref)
    ensures Created(c.entries, ref)
  {
    var e :| e in c.entries && ref in Consumed(e);
    var n :| 0 <= n < |c.entries| && c.entries[n] == e;
    UnspentBefore(c.entries, n, ref);
    assert forall x :: x in c.entries[..n] ==> x in c.entries;
  }

  /** An output of a transaction that is not on the chain is neither there nor spent by any other. */
  lemma OutputIsNew(c: ChainState, tx: Tx)
    requires ValidChain(c) && tx.outputs != [] && !Included(c, tx)
    ensures !Created(c.entries, OutRef(tx, 0)) && !Spent(c.entries, OutRef(tx, 0))
  {
    assert !Created(c.entries, OutRef(tx, 0)) by { hide ValidChain; }
    if Spent(c.entries, OutRef(tx, 0)) {
      SpentMeansCreated(c, OutRef(tx, 0));
    }
  }

  // ----- What a transaction needs of the chain before it -----

  /** The outputs that must be unspent when a block carries the transaction. */
  function Needs(tx: Tx): seq<OutRef> {
    tx.inputs + tx.collateral
  }

  /** Some chain could carry it. */
  predicate WellFormed(tx: Tx) {
    tx.inputs != [] && NoDuplicates(tx.inputs) && NoDuplicates(tx.collateral)
  }

  predicate Supplies(e: Entry, wanted: seq<OutRef>) {
    exists r :: r in wanted && r.OutRef? && r.tx == e.tx && Produces(e, r.index)
  }

  /** The entries that the wanted outputs come from, directly or through what those entries needed. */
  function Lineage(entries: seq<Entry>, wanted: seq<OutRef>): seq<Entry>
    decreases |entries|
  {
    if entries == [] then []
    else
      var front, last := entries[..|entries| - 1], entries[|entries| - 1];
      if Supplies(last, wanted) then Lineage(front, wanted + Needs(last.tx)) + [last] else Lineage(front, wanted)
  }

  lemma {:induction false} LineageIsPart(entries: seq<Entry>, wanted: seq<OutRef>)
    ensures forall e :: e in Lineage(entries, wanted) ==> e in entries
    decreases |entries|
  {
    hide Supplies;
    if entries != [] {
      var front, last := entries[..|entries| - 1], entries[|entries| - 1];
      LineageIsPart(front, wanted + Needs(last.tx));
      LineageIsPart(front, wanted);
    }
  }

  lemma SubsetSpends(a: seq<Entry>, b: seq<Entry>)
    requires forall e :: e in a ==> e in b
    ensures forall r :: Spent(a, r) ==> Spent(b, r)
    ensures forall r :: Created(a, r) ==> Created(b, r)
  {
  }

  /** An entry that finds what it needs still finds it after fewer others that created it. */
  lemma IncludableAfterFewer(more: seq<Entry>, fewer: seq<Entry>, e: Entry)
    requires Includable(more, e) && forall x :: x in fewer ==> x in more
    requires forall r :: r in Needs(e.tx) ==> Created(fewer, r)
    ensures Includable(fewer, e)
  {
    hide Created, Spent;
    SubsetSpends(fewer, more);
    forall r | r in e.tx.inputs || r in e.tx.collateral ensures Unspent(fewer, r) {
      assert r in Needs(e.tx);
    }
  }

  lemma NeedsAreCreated(entries: seq<Entry>, e: Entry)
    requires Includable(entries, e)
    ensures forall r :: r in Needs(e.tx) ==> Created(entries, r) && !Spent(entries, r)
  {
    hide Created, Spent;
  }

  /** A wanted output comes from the entries before, or the last one supplies it. */
  lemma CreatedByFrontOrLast(front: seq<Entry>, last: Entry, wanted: seq<OutRef>, r: OutRef)
    requires r in wanted && Created(front + [last], r)
    ensures Created(front, r) || (Supplies(last, wanted) && forall other :: Created(other + [last], r))
  {
    if r.OutRef? {
      var e :| e in front + [last] && e.tx == r.tx && Produces(e, r.index);
      if e == last {
        forall other ensures Created(other + [last], r) {
          assert last in other + [last];
        }
      }
    }
  }

  lemma SplitLast(stem: seq<Entry>, entries: seq<Entry>)
    requires ValidEntries(stem + entries) && entries != []
    ensures var front, last := entries[..|entries| - 1], entries[|entries| - 1];
      && stem + entries == (stem + front) + [last]
      && ValidEntries(stem + front) && Includable(stem + front, last)
  {
    var all := stem + entries;
    var front, last := entries[..|entries| - 1], entries[|entries| - 1];
    assert entries == front + [last];
    assert all == (stem + front) + [last];
    assert all[..|all| - 1] == stem + front && all[|all| - 1] == last;
    PrefixIsValid(all, |all| - 1);
  }

  /** A lineage alone is a valid continuation of the stem, and it creates the wanted outputs that all entries created. */
  lemma {:induction false} LineageIsValid(stem: seq<Entry>, entries: seq<Entry>, wanted: seq<OutRef>)
    requires ValidEntries(stem + entries)
    ensures ValidEntries(stem + Lineage(entries, wanted))
    ensures forall r :: r in wanted && Created(stem + entries, r) ==> Created(stem + Lineage(entries, wanted), r)
    decreases |entries|
  {
    hide Created, Includable, Supplies, ValidEntries;
    if entries != [] {
      var front, last := entries[..|entries| - 1], entries[|entries| - 1];
      SplitLast(stem, entries);
      if Supplies(last, wanted) {
        var earlier := wanted + Needs(last.tx);
        LineageIsValid(stem, front, earlier);
        var kept := stem + Lineage(front, earlier);
        LineageIsPart(front, earlier);
        NeedsAreCreated(stem + front, last);
        IncludableAfterFewer(stem + front, kept, last);
        AppendIsValid(kept, last);
        assert stem + Lineage(entries, wanted) == kept + [last];
        forall r | r in wanted && Created(stem + entries, r) ensures Created(kept + [last], r) {
          CreatedByFrontOrLast(stem + front, last, wanted, r);
          SubsetSpends(kept, kept + [last]);
        }
      } else {
        LineageIsValid(stem, front, wanted);
        forall r | r in wanted && Created(stem + entries, r) ensures Created(stem + front, r) {
          CreatedByFrontOrLast(stem + front, last, wanted, r);
        }
      }
    }
  }

  /** The same transaction with the same outcome is among the entries. */
  predicate Has(entries: seq<Entry>, e: Entry) {
    exists d :: d in entries && d.tx == e.tx && d.ok == e.ok
  }

  /** What created an output on one chain created it on every other, with the same outcome. */
  lemma SupplierIsThere(entries: seq<Entry>, e: Entry, wanted: seq<OutRef>)
    requires ValidEntries(entries) && Supplies(e, wanted) && forall r :: r in wanted ==> Created(entries, r)
    ensures Has(entries, e) && forall r :: r in Needs(e.tx) ==> Created(entries, r)
  {
    var r :| r in wanted && r.OutRef? && r.tx == e.tx && Produces(e, r.index);
    assert Created(entries, r);
    var d :| d in entries && d.tx == r.tx && Produces(d, r.index);
    assert d.ok == e.ok;
    var i :| 0 <= i < |entries| && entries[i] == d;
    assert Includable(entries[..i], entries[i]);
    NeedsAreCreated(entries[..i], d);
    SubsetSpends(entries[..i], entries);
  }

  /** Whatever chain has the wanted outputs also has their whole lineage. */
  lemma {:induction false} LineageIsNeeded(entries: seq<Entry>, wanted: seq<OutRef>, other: seq<Entry>)
    requires ValidEntries(other) && forall r :: r in wanted ==> Created(other, r)
    ensures forall e :: e in Lineage(entries, wanted) ==> Has(other, e)
    decreases |entries|
  {
    hide Created, ValidEntries, Supplies, Has;
    if entries != [] {
      var front, last := entries[..|entries| - 1], entries[|entries| - 1];
      if Supplies(last, wanted) {
        SupplierIsThere(other, last, wanted);
        LineageIsNeeded(front, wanted + Needs(last.tx), other);
      } else {
        LineageIsNeeded(front, wanted, other);
      }
    }
  }

  // ----- When an absent transaction stays away -----

  /** The part of the chain that no rollback reaches. */
  function Stem(c: ChainState): seq<Entry> {
    c.entries[..KeepUpTo(c.entries, FinalSlot(c))]
  }

  function Recent(c: ChainState): seq<Entry> {
    c.entries[KeepUpTo(c.entries, FinalSlot(c))..]
  }

  /** What is on every later chain that carries the transaction: the stem, and what its needs come from. */
  function Kept(c: ChainState, tx: Tx): seq<Entry> {
    Stem(c) + Lineage(Recent(c), Needs(tx))
  }

  /** One of its needs is spent behind the deepest rollback, or by a block that another of its needs comes from. */
  predicate NeedTaken(c: ChainState, tx: Tx) {
    exists r :: r in Needs(tx) && Spent(Kept(c, tx), r)
  }

  /** The first slot after the deepest rollback is too late. */
  predicate TooLateFor(c: ChainState, tx: Tx) {
    tx.validUntil.Some? && tx.validUntil.value <= FinalSlot(c) + 1
  }

  lemma StemIsBuried(c: ChainState)
    requires ValidChain(c)
    ensures Buried(c, |Stem(c)|) && Stem(c) + Recent(c) == c.entries
    ensures forall e :: e in Recent(c) ==> e.slot > FinalSlot(c)
    ensures ValidEntries(c.entries)
  {
    hide ValidEntries;
  }

  lemma KeptIsPart(c: ChainState, tx: Tx)
    requires ValidChain(c)
    ensures forall e :: e in Kept(c, tx) ==> e in c.entries
  {
    hide ValidChain, Lineage;
    LineageIsPart(Recent(c), Needs(tx));
    StemIsBuried(c);
    assert forall e :: e in Stem(c) + Recent(c) ==> e in c.entries;
  }

  /** What `Kept` spent is spent on a later chain before any entry that needs the same outputs. */
  lemma KeptIsSpent(c: ChainState, tx: Tx, c': ChainState, k: nat, r: OutRef)
    requires ValidChain(c) && Leads(c, c') && |Stem(c)| <= k <= |c'.entries| && ValidEntries(c'.entries[..k])
    requires (forall n :: n in Needs(tx) ==> Created(c'.entries[..k], n)) && Spent(Kept(c, tx), r)
    ensures Spent(c'.entries[..k], r)
  {
    hide ValidChain, Leads, Created, ValidEntries, Lineage, Buried;
    StemIsBuried(c);
    BuriedStays(c, c', |Stem(c)|);
    LineageIsNeeded(Recent(c), Needs(tx), c'.entries[..k]);
    var e :| e in Kept(c, tx) && r in Consumed(e);
    if e in Stem(c) {
      StemStays(c, c', k);
    } else {
      assert Has(c'.entries[..k], e);
    }
  }

  lemma StemStays(c: ChainState, c': ChainState, k: nat)
    requires ValidChain(c) && Leads(c, c') && |Stem(c)| <= k <= |c'.entries|
    ensures Stem(c) <= c'.entries[..k]
  {
    hide ValidChain, Leads, Buried;
    StemIsBuried(c);
    BuriedStays(c, c', |Stem(c)|);
    assert c'.entries[..|Stem(c)|] == c.entries[..|Stem(c)|] == Stem(c);
  }

  /** Where the transaction stands on a later chain: after the stem, with its needs unspent. */
  lemma PlaceOnLater(c: ChainState, c': ChainState, tx: Tx) returns (k: nat)
    requires ValidChain(c) && Leads(c, c') && !Included(c, tx) && Included(c', tx)
    ensures |Stem(c)| <= k <= |c'.entries| && ValidEntries(c'.entries[..k]) && WellFormed(tx)
    ensures forall r :: r in Needs(tx) ==> Created(c'.entries[..k], r) && !Spent(c'.entries[..k], r)
  {
    LeadsToValid(c, c');
    var e :| e in c'.entries && e.tx == tx && e.ok;
    k :| 0 <= k < |c'.entries| && c'.entries[k] == e;
    assert Includable(c'.entries[..k], e);
    NeedsAreCreated(c'.entries[..k], e);
    PrefixIsValid(c'.entries, k);
    hide ValidEntries, Includable, Leads;
    if k < |Stem(c)| {
      StemEntryIsOld(c, c', k);
    }
    StemIsBuried(c);
    BuriedStays(c, c', |Stem(c)|);
  }

  lemma StemEntryIsOld(c: ChainState, c': ChainState, k: nat)
    requires ValidChain(c) && Leads(c, c') && k < |Stem(c)|
    ensures k < |c'.entries| && c'.entries[k] in c.entries
  {
    hide ValidChain, Leads, Buried;
    StemIsBuried(c);
    BuriedStays(c, c', |Stem(c)|);
    assert c'.entries[..|Stem(c)|][k] == c.entries[..|Stem(c)|][k];
  }

  lemma LeadsToValid(c: ChainState, c': ChainState)
    requires Leads(c, c')
    ensures ValidChain(c')
  {
    var run :| ChainRun(run) && run[0] == c && run[|run| - 1] == c';
    RunStaysValid(run, |run| - 1);
  }

  lemma OnlyIncludedShows(c: ChainState, tx: Tx)
    requires tx.outputs != [] && Unspent(c.entries, OutRef(tx, 0))
    ensures Included(c, tx)
  {
    var e :| e in c.entries && e.tx == tx && Produces(e, 0);
    assert e.ok;
  }

  lemma TakenIsGone(c: ChainState, tx: Tx)
    requires ValidChain(c) && tx.outputs != [] && !Included(c, tx) && (NeedTaken(c, tx) || !WellFormed(tx))
    ensures GoneFrom(c, OutRef(tx, 0))
  {
    hide ValidChain, Leads, Included, Unspent, Spent, Created, Kept, ValidEntries;
    forall c' | Leads(c, c') ensures !Unspent(c'.entries, OutRef(tx, 0)) {
      if Unspent(c'.entries, OutRef(tx, 0)) {
        OnlyIncludedShows(c', tx);
        var k := PlaceOnLater(c, c', tx);
        forall r | r in Needs(tx) && Spent(Kept(c, tx), r) ensures Spent(c'.entries[..k], r) {
          KeptIsSpent(c, tx, c', k, r);
        }
      }
    }
  }

  lemma NewOutputIsUnspent(entries: seq<Entry>, e: Entry)
    requires e.ok && e.tx.outputs != [] && !Spent(entries, OutRef(e.tx, 0))
    ensures Unspent(entries + [e], OutRef(e.tx, 0))
  {
    assert e in entries + [e] && Produces(e, 0);
    assert OutRef(e.tx, 0) !in Consumed(e);
  }

  /** A node rolls back as far as it can, adopts only what the transaction's needs come from, and the transaction. */
  lemma EntersAfterItsLineage(c: ChainState, tx: Tx) returns (c': ChainState)
    requires ValidChain(c) && tx.outputs != [] && !Included(c, tx) && WellFormed(tx) && !NeedTaken(c, tx) && !TooLateFor(c, tx)
    requires forall r :: r in Needs(tx) ==> Created(c.entries, r)
    ensures Leads(c, c') && Unspent(c'.entries, OutRef(tx, 0))
  {
    hide ValidChain, Includable, SameTxs, Leads, Included, ValidEntries, Created, Spent, Lineage, Buried, KeepUpTo;
    var stem, line := Stem(c), Lineage(Recent(c), Needs(tx));
    StemIsBuried(c);
    LineageIsValid(stem, Recent(c), Needs(tx));
    LineageIsPart(Recent(c), Needs(tx));
    var e := Entry(tx, FinalSlot(c) + 1, true);
    var again := Earlier(line, FinalSlot(c) + 1);
    MovedIsValid(stem, line, FinalSlot(c) + 1);
    NeedsAreMet(c, tx, stem + again, e);
    AppendIsValid(stem + again, e);
    assert (stem + again) + [e] == stem + (again + [e]);
    FinalIsReached(c);
    c' := ForkFrom(c, FinalSlot(c), again + [e]);
    OutputIsNew(c, tx);
    KeptIsPart(c, tx);
    SubsetSpends(Kept(c, tx), c.entries);
    SameTxsSameOutputs(Kept(c, tx), stem + again, OutRef(tx, 0));
    NewOutputIsUnspent(stem + again, e);
  }

  lemma FinalIsReached(c: ChainState)
    requires ValidChain(c)
    ensures FinalSlot(c) <= c.tip
  {
  }

  lemma MovedIsValid(stem: seq<Entry>, line: seq<Entry>, slot: Slot)
    requires ValidEntries(stem + line) && forall e :: e in line ==> slot <= e.slot
    ensures ValidEntries(stem + Earlier(line, slot)) && SameTxs(stem + line, stem + Earlier(line, slot))
  {
    hide ValidEntries;
    var all := stem + line;
    assert all[..|stem|] == stem && all[|stem|..] == line;
    forall i | |stem| <= i < |all| ensures slot <= all[i].slot {
      assert all[i] in line;
    }
    EarlierIsValid(all, |stem|, slot);
  }

  lemma NeedsAreMet(c: ChainState, tx: Tx, moved: seq<Entry>, e: Entry)
    requires WellFormed(tx) && SameTxs(Kept(c, tx), moved) && !NeedTaken(c, tx) && !TooLateFor(c, tx)
    requires forall r :: r in Needs(tx) ==> Created(Kept(c, tx), r)
    requires e == Entry(tx, FinalSlot(c) + 1, true)
    ensures Includable(moved, e)
  {
    hide Created, Spent, Kept, SameTxs;
    forall r | r in tx.inputs || r in tx.collateral ensures Unspent(moved, r) {
      assert r in Needs(tx);
      SameTxsSameOutputs(Kept(c, tx), moved, r);
    }
  }

  /**
   The first output of a transaction that is not on the chain stays away exactly
   when no block can carry it at all, the first slot after the deepest rollback is
   too late for it, or what it needs is taken for good. The chain must show the
   outputs that it needs, spent or not.
   */
  lemma AbsenceStaysExactly(c: ChainState, tx: Tx)
    requires ValidChain(c) && tx.outputs != [] && !Included(c, tx)
    requires forall r :: r in Needs(tx) ==> Created(c.entries, r)
    ensures GoneFrom(c, OutRef(tx, 0)) <==> !WellFormed(tx) || TooLateFor(c, tx) || NeedTaken(c, tx)
  {
    hide ValidChain, Included, Created, NeedTaken, TooLateFor, WellFormed, Leads, Unspent;
    if TooLateFor(c, tx) {
      LateIsGone(c, tx);
    } else if !WellFormed(tx) || NeedTaken(c, tx) {
      TakenIsGone(c, tx);
    } else {
      var c' := EntersAfterItsLineage(c, tx);
    }
  }

  lemma LateIsGone(c: ChainState, tx: Tx)
    requires tx.outputs != [] && !Included(c, tx) && TooLateFor(c, tx)
    ensures GoneFrom(c, OutRef(tx, 0))
  {
    forall c' | Leads(c, c') ensures !Unspent(c'.entries, OutRef(tx, 0)) {
      var run :| ChainRun(run) && run[0] == c && run[|run| - 1] == c';
      RunKeepsOut(run, |run| - 1, tx);
      RunStaysValid(run, |run| - 1);
      OutputIsNew(c', tx);
    }
  }

  // ----- One block decides -----

  lemma StepKeepsLater(c: ChainState, move: ChainMove, c': ChainState, n: nat, slot: Slot)
    requires ValidChain(c) && ChainStep(c, move, c') && Buried(c, n) && slot <= FinalSlot(c)
    requires forall e :: e in c.entries[n..] ==> e.slot > slot
    ensures n <= |c'.entries| && forall e :: e in c'.entries[n..] ==> e.slot > slot
  {
    hide ValidEntries, SlotsRise;
    StepKeepsBuried(c, move, c', n);
    if move.Extend? {
      assert c'.entries[n..] == c.entries[n..] + move.body;
    } else {
      assert forall e :: e in c'.entries[n..] ==> e in c.entries[n..];
    }
  }

  lemma {:induction false} RunKeepsLater(run: seq<ChainState>, j: nat)
    requires ChainRun(run) && j < |run|
    ensures Buried(run[j], |Stem(run[0])|) && FinalSlot(run[0]) <= FinalSlot(run[j])
    ensures forall e :: e in run[j].entries[|Stem(run[0])|..] ==> e.slot > FinalSlot(run[0])
  {
    hide ChainStep, ValidChain, Stem;
    StemIsBuried(run[0]);
    RunKeepsBuried(run, j, |Stem(run[0])|);
    if j == 0 {
      StemThenRecent(run[0]);
    } else {
      RunKeepsLater(run, j - 1);
      RunStaysValid(run, j - 1);
      assert Follows(run[j - 1], run[j]);
      var move :| ChainStep(run[j - 1], move, run[j]);
      StepKeepsLater(run[j - 1], move, run[j], |Stem(run[0])|, FinalSlot(run[0]));
    }
  }

  lemma StemThenRecent(c: ChainState)
    requires ValidChain(c)
    ensures |Stem(c)| <= |c.entries| && c.entries[|Stem(c)|..] == Recent(c)
  {
  }

  /** One block in the first slot after the deepest rollback. */
  ghost predicate IsFork(c: ChainState, body: seq<Entry>) {
    (forall e :: e in body ==> e.slot == FinalSlot(c) + 1) && ValidEntries(Stem(c) + body)
  }

  ghost predicate ForkShows(c: ChainState, ref: OutRef, body: seq<Entry>) {
    IsFork(c, body) && Unspent(Stem(c) + body, ref)
  }

  /**
   Whatever an output is, and whatever made it missing: it is unspent on some
   chain that the node can come to adopt, after any number of blocks and
   rollbacks, exactly when one block after the deepest rollback can show it.
   */
  lemma OneBlockDecides(c: ChainState, ref: OutRef)
    requires ValidChain(c)
    ensures GoneFrom(c, ref) <==> !exists body :: ForkShows(c, ref, body)
  {
    hide ValidChain, ValidEntries, Unspent, Stem, Leads;
    forall body | ForkShows(c, ref, body) ensures !GoneFrom(c, ref) {
      var c' := ForkTo(c, body);
    }
    forall c' | Leads(c, c') && Unspent(c'.entries, ref) ensures exists body :: ForkShows(c, ref, body) {
      var body := AsOneBlock(c, c', ref);
    }
  }

  lemma ForkTo(c: ChainState, body: seq<Entry>) returns (c': ChainState)
    requires ValidChain(c) && IsFork(c, body)
    ensures Leads(c, c') && c'.entries == Stem(c) + body
  {
    hide ValidEntries, Leads, KeepUpTo;
    c' := ForkFrom(c, FinalSlot(c), body);
  }

  /** All that a later chain has after the stem fits into one block. */
  lemma AsOneBlock(c: ChainState, c': ChainState, ref: OutRef) returns (body: seq<Entry>)
    requires ValidChain(c) && Leads(c, c') && Unspent(c'.entries, ref)
    ensures ForkShows(c, ref, body)
  {
    hide ValidEntries, Unspent, Created, Spent, Stem, SameTxs, Buried;
    var run :| ChainRun(run) && run[0] == c && run[|run| - 1] == c';
    RunKeepsLater(run, |run| - 1);
    RunStaysValid(run, |run| - 1);
    hide ChainRun, ValidChain;
    var n := |Stem(c)|;
    BuriedFits(c', n);
    StemStays(c, c', |c'.entries|);
    var line := c'.entries[n..];
    assert Stem(c) + line == c'.entries;
    body := Earlier(line, FinalSlot(c) + 1);
    ValidMeansEntries(c');
    MovedIsValid(Stem(c), line, FinalSlot(c) + 1);
    SameUnspent(c'.entries, Stem(c) + body, ref);
  }

  lemma ValidMeansEntries(c: ChainState)
    requires ValidChain(c)
    ensures ValidEntries(c.entries)
  {
  }

  lemma SameUnspent(a: seq<Entry>, b: seq<Entry>, ref: OutRef)
    requires SameTxs(a, b) && Unspent(a, ref)
    ensures Unspent(b, ref)
  {
    hide SameTxs, Created, Spent;
    SameTxsSameOutputs(a, b, ref);
  }
}

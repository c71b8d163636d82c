/**
 The part of a UTxO ledger that the publisher relies on.

 A transaction's hash is modelled by the transaction value itself, so a hash is
 collision free by construction and an output reference determines its output.
 A transaction enters a block only in a slot strictly below its upper validity
 bound and only while its inputs and collateral are unspent. A block can also
 carry a transaction whose script failed: it then consumes the collateral
 instead of the inputs.
 */
module Ledger {
  import opened Prelude

  type Slot = nat
  type Address = nat
  type AgentId = nat

  /** Text that the services store and compare but never take apart. */
  type Text = nat

  /** The advert fields that an operator approves (everything but the time and the agent). */
  datatype Offer = Offer(
    supplierPkh: nat, capabilityId: Text, model: Text, maxOutputTokens: nat, maxProcessingMs: nat,
    price: nat, supplierBond: nat, buyerBond: nat, endpointUrl: Text, detailUri: Text, detailHash: nat,
    active: bool)

  /** An identity-layout advert names its agent; a legacy-layout advert has none. */
  datatype Datum =
    | NoDatum
    | OtherDatum(tag: nat)
    | AdvertDatum(offer: Offer, advertisedAt: nat, agent: Option<AgentId>)

  datatype Output = Output(address: Address, lovelace: nat, datum: Datum)

  datatype OutRef =
    | Genesis(n: nat, output: Output)
    | OutRef(tx: Tx, index: nat)

  datatype Tx = Tx(
    inputs: seq<OutRef>, outputs: seq<Output>, fee: nat, validUntil: Option<Slot>,
    collateral: seq<OutRef>, collateralReturn: Option<Output>, totalCollateral: Option<nat>)

  /** One transaction of a block; `ok` is false when its script failed. */
  datatype Entry = Entry(tx: Tx, slot: Slot, ok: bool)

  /** The chain a node has adopted, its tip slot and the highest tip it ever adopted. */
  datatype ChainState = ChainState(entries: seq<Entry>, tip: Slot, highest: Slot)

  /** Rollbacks reach at most this many slots behind the highest tip. */
  const ROLLBACK_SLOTS: nat := 43_200

  /** A collateral return takes the index after the last output. */
  function OutputOf(ref: OutRef): Option<Output> {
    match ref
    case Genesis(_, output) => Some(output)
    case OutRef(tx, index) =>
      if index < |tx.outputs| then Some(tx.outputs[index])
      else if index == |tx.outputs| then tx.collateralReturn
      else None
  }

  function Consumed(e: Entry): seq<OutRef> {
    if e.ok then e.tx.inputs else e.tx.collateral
  }

  predicate Produces(e: Entry, index: nat) {
    if e.ok then index < |e.tx.outputs| else index == |e.tx.outputs| && e.tx.collateralReturn.Some?
  }

  predicate Spent(entries: seq<Entry>, ref: OutRef) {
    exists e :: e in entries && ref in Consumed(e)
  }

  predicate Created(entries: seq<Entry>, ref: OutRef) {
    match ref
    case Genesis(_, _) => true
    case OutRef(tx, index) => exists e :: e in entries && e.tx == tx && Produces(e, index)
  }

  /** What a query for one output reference finds. */
  predicate Unspent(entries: seq<Entry>, ref: OutRef) {
    Created(entries, ref) && !Spent(entries, ref)
  }

  predicate InTime(tx: Tx, slot: Slot) {
    tx.validUntil.None? || slot < tx.validUntil.value
  }

  predicate NoDuplicates(refs: seq<OutRef>) {
    forall i, j :: 0 <= i < j < |refs| ==> refs[i] != refs[j]
  }

  predicate Includable(entries: seq<Entry>, e: Entry) {
    && e.tx.inputs != [] && NoDuplicates(e.tx.inputs) && NoDuplicates(e.tx.collateral)
    && InTime(e.tx, e.slot)
    && (forall r :: r in e.tx.inputs ==> Unspent(entries, r))
    && (forall r :: r in e.tx.collateral ==> Unspent(entries, r))
    && (!e.ok ==> e.tx.collateral != [])
  }

  ghost predicate ValidEntries(entries: seq<Entry>) {
    forall i :: 0 <= i < |entries| ==> Includable(entries[..i], entries[i])
  }

  predicate Included(c: ChainState, tx: Tx) {
    exists e :: e in c.entries && e.tx == tx && e.ok
  }

  predicate Failed(c: ChainState, tx: Tx) {
    exists e :: e in c.entries && e.tx == tx && !e.ok
  }

  predicate SlotsRise(entries: seq<Entry>) {
    forall i, j :: 0 <= i < j < |entries| ==> entries[i].slot <= entries[j].slot
  }

  ghost predicate ValidChain(c: ChainState) {
    && ValidEntries(c.entries) && SlotsRise(c.entries)
    && (forall e :: e in c.entries ==> e.slot <= c.tip)
    && c.tip <= c.highest <= c.tip + ROLLBACK_SLOTS
  }

  /** A node appends one block, or returns to an earlier point of its chain. */
  datatype ChainMove =
    | Extend(slot: Slot, body: seq<Entry>)
    | Rollback(point: Slot, keep: nat)

  ghost predicate ChainStep(c: ChainState, move: ChainMove, c': ChainState) {
    match move
    case Extend(slot, body) =>
      && c.tip < slot
      && (forall e :: e in body ==> e.slot == slot)
      && ValidEntries(c.entries + body)
      && c' == ChainState(c.entries + body, slot, if c.highest < slot then slot else c.highest)
    case Rollback(point, keep) =>
      && point <= c.tip
      && c.highest <= point + ROLLBACK_SLOTS
      && keep <= |c.entries|
      && (forall i :: 0 <= i < keep ==> c.entries[i].slot <= point)
      && (forall i :: keep <= i < |c.entries| ==> c.entries[i].slot > point)
      && c' == ChainState(c.entries[..keep], point, c.highest)
  }

  ghost predicate Follows(c: ChainState, c': ChainState) {
    exists move :: ChainStep(c, move, c')
  }

  ghost predicate ChainRun(run: seq<ChainState>) {
    && run != []
    && ValidChain(run[0])
    && forall i, j :: 0 <= i && j == i + 1 && j < |run| ==> Follows(run[i], run[j])
  }

  /** A node that has adopted `c` can come to adopt `c'`. */
  ghost predicate Leads(c: ChainState, c': ChainState) {
    exists run :: ChainRun(run) && run[0] == c && run[|run| - 1] == c'
  }

  /** What the publisher reads before it ends an advert as expired. */
  predicate ExpiryEvidence(c: ChainState, tx: Tx, margin: nat) {
    && tx.validUntil.Some?
    && (forall r :: r in tx.inputs ==> Unspent(c.entries, r))
    && c.tip > tx.validUntil.value + margin
  }

  /** The transaction moved none of its inputs, and no block of a later chain can be early enough for it. */
  ghost predicate Dead(c: ChainState, tx: Tx) {
    && tx.validUntil.Some?
    && !Included(c, tx)
    && c.highest > tx.validUntil.value + ROLLBACK_SLOTS - 2
  }

  // ----- Validity of the adopted chain -----

  lemma StepKeepsChainValid(c: ChainState, move: ChainMove, c': ChainState)
    requires ValidChain(c) && ChainStep(c, move, c')
    ensures ValidChain(c') && c.highest <= c'.highest
  {
    if move.Rollback? {
      forall i | 0 <= i < |c'.entries| ensures Includable(c'.entries[..i], c'.entries[i]) {
        assert c.entries[..move.keep][..i] == c.entries[..i];
      }
    }
  }

  /** No transaction enters a chain twice, not even once with a failed script and once without. */
  lemma TransactionEntersOnce(entries: seq<Entry>, i: nat, j: nat)
    requires ValidEntries(entries) && i < j < |entries|
    ensures entries[i].tx != entries[j].tx
  {
    assert Includable(entries[..i], entries[i]) && Includable(entries[..j], entries[j]);
    assert entries[..j][i] == entries[i];
    var taken := Consumed(entries[i])[0];
    assert taken in entries[i].tx.inputs || taken in entries[i].tx.collateral;
    assert Spent(entries[..j], taken);
    assert taken !in entries[j].tx.inputs && taken !in entries[j].tx.collateral;
  }

  lemma IncludedMeansInputsSpent(c: ChainState, tx: Tx, ref: OutRef)
    requires Included(c, tx) && ref in tx.inputs
    ensures Spent(c.entries, ref)
  {
    var e :| e in c.entries && e.tx == tx && e.ok;
    assert ref in Consumed(e);
  }

  // ----- Finality of an expired transaction -----

  lemma IncludedHasSpentInput(c: ChainState, tx: Tx)
    requires ValidChain(c) && Included(c, tx)
    ensures exists r :: r in tx.inputs && Spent(c.entries, r)
  {
    var e :| e in c.entries && e.tx == tx && e.ok;
    var k :| 0 <= k < |c.entries| && c.entries[k] == e;
    assert Includable(c.entries[..k], e);
    IncludedMeansInputsSpent(c, tx, tx.inputs[0]);
  }

  lemma EvidenceMeansDead(c: ChainState, tx: Tx)
    requires ValidChain(c) && ExpiryEvidence(c, tx, ROLLBACK_SLOTS)
    ensures Dead(c, tx)
  {
    if Included(c, tx) {
      IncludedHasSpentInput(c, tx);
    }
  }

  lemma DeadStaysDead(c: ChainState, move: ChainMove, c': ChainState, tx: Tx)
    requires ValidChain(c) && ChainStep(c, move, c') && Dead(c, tx)
    ensures Dead(c', tx)
  {
    StepKeepsChainValid(c, move, c');
    forall e | e in c'.entries && e !in c.entries ensures InTime(e.tx, e.slot) {
      var k :| 0 <= k < |c'.entries| && c'.entries[k] == e;
      assert Includable(c'.entries[..k], e);
    }
  }

  lemma {:induction false} RunStaysValid(run: seq<ChainState>, i: nat)
    requires ChainRun(run) && i < |run|
    ensures ValidChain(run[i])
  {
    if i > 0 {
      RunStaysValid(run, i - 1);
      assert Follows(run[i - 1], run[i]);
      var move :| ChainStep(run[i - 1], move, run[i]);
      StepKeepsChainValid(run[i - 1], move, run[i]);
    }
  }

  /** An expired transaction enters no chain that the node adopts later, whatever is rolled back. */
  lemma {:induction false} ExpiredNeverEnters(run: seq<ChainState>, i: nat, j: nat, tx: Tx)
    requires ChainRun(run) && i <= j < |run|
    requires ExpiryEvidence(run[i], tx, ROLLBACK_SLOTS)
    ensures !Included(run[j], tx) && Dead(run[j], tx)
    decreases j
  {
    hide ChainStep, ValidChain, ExpiryEvidence;
    RunStaysValid(run, j);
    if i == j {
      EvidenceMeansDead(run[i], tx);
    } else {
      ExpiredNeverEnters(run, i, j - 1, tx);
      RunStaysValid(run, j - 1);
      assert Follows(run[j - 1], run[j]);
      var move :| ChainStep(run[j - 1], move, run[j]);
      DeadStaysDead(run[j - 1], move, run[j], tx);
    }
  }

  /** A finality margin is sound when no run lets a transaction in after its expiry evidence was read. */
  ghost predicate MarginSound(margin: nat) {
    forall run: seq<ChainState>, i: nat, j: nat, tx: Tx ::
      ChainRun(run) && i <= j < |run| && ExpiryEvidence(run[i], tx, margin) ==> !Included(run[j], tx)
  }

  /** The chosen margin is the rollback depth; two slots fewer would still be sound, three fewer would not. */
  lemma MarginIsSoundExactly(margin: nat)
    ensures MarginSound(margin) <==> margin >= ROLLBACK_SLOTS - 2
  {
    if margin >= ROLLBACK_SLOTS - 2 {
      forall run: seq<ChainState>, i: nat, j: nat, tx: Tx
        | ChainRun(run) && i <= j < |run| && ExpiryEvidence(run[i], tx, margin)
        ensures !Included(run[j], tx)
      {
        LargeMarginKeepsOut(run, i, j, tx, margin);
      }
    } else {
      var run, tx := ShortMarginRun(margin);
      assert ExpiryEvidence(run[0], tx, margin) && Included(run[2], tx);
    }
  }

  lemma {:induction false} LargeMarginKeepsOut(run: seq<ChainState>, i: nat, j: nat, tx: Tx, margin: nat)
    requires margin >= ROLLBACK_SLOTS - 2
    requires ChainRun(run) && i <= j < |run| && ExpiryEvidence(run[i], tx, margin)
    ensures Dead(run[j], tx)
    decreases j
  {
    hide ChainStep;
    RunStaysValid(run, j);
    if i == j {
      if Included(run[i], tx) {
        IncludedHasSpentInput(run[i], tx);
      }
    } else {
      LargeMarginKeepsOut(run, i, j - 1, tx, margin);
      RunStaysValid(run, j - 1);
      assert Follows(run[j - 1], run[j]);
      var move :| ChainStep(run[j - 1], move, run[j]);
      DeadStaysDead(run[j - 1], move, run[j], tx);
    }
  }

  /** The run that defeats a short margin: the deepest rollback, then a block in the next slot. */
  lemma ShortMarginRun(margin: nat) returns (run: seq<ChainState>, tx: Tx)
    requires margin < ROLLBACK_SLOTS - 2
    ensures |run| == 3 && ChainRun(run) && ExpiryEvidence(run[0], tx, margin) && Included(run[2], tx)
  {
    var coin := Genesis(0, Output(0, 1, NoDatum));
    tx := Tx([coin], [], 1, Some(ROLLBACK_SLOTS), [], None, None);
    var tip := ROLLBACK_SLOTS + margin + 1;
    var e := Entry(tx, margin + 2, true);
    var before := ChainState([], tip, tip);
    var back := ChainState([], margin + 1, tip);
    var after := ChainState([e], margin + 2, tip);
    assert ChainStep(before, Rollback(margin + 1, 0), back);
    assert [] + [e] == [e];
    assert Includable([e][..0], e);
    assert ChainStep(back, Extend(margin + 2, [e]), after);
    run := [before, back, after];
    assert Follows(before, back) && Follows(back, after);
    assert e in after.entries;
  }

  // ----- What "no funds moved" does and does not mean -----

  /** No block of the adopted chain took an input or a collateral of the transaction for it. */
  ghost predicate TookNothing(c: ChainState, tx: Tx) {
    forall e :: e in c.entries && e.tx == tx ==> Consumed(e) == []
  }

  lemma EntryIsIncludable(c: ChainState, e: Entry)
    requires ValidChain(c) && e in c.entries
    ensures NoDuplicates(e.tx.inputs) && (!e.ok ==> e.tx.collateral != [])
    ensures forall r :: r in Consumed(e) ==> Spent(c.entries, r)
  {
    var k :| 0 <= k < |c.entries| && c.entries[k] == e;
    assert Includable(c.entries[..k], e);
  }

  /** One unspent pledge in the snapshot of the expiry evidence proves that no funds moved; so does a transaction without any. */
  lemma UnspentPledgeProvesIt(c: ChainState, tx: Tx)
    requires ValidChain(c) && ExpiryEvidence(c, tx, ROLLBACK_SLOTS)
    requires tx.collateral == [] || exists r :: r in tx.collateral && Unspent(c.entries, r)
    ensures TookNothing(c, tx)
  {
    EvidenceMeansDead(c, tx);
    forall e | e in c.entries && e.tx == tx ensures Consumed(e) == [] {
      EntryIsIncludable(c, e);
    }
  }

  /** The expiry evidence reads the pledges too: there are none, or one of them is also an input. */
  predicate PledgesAreRead(tx: Tx) {
    tx.collateral == [] || exists r :: r in tx.collateral && r in tx.inputs
  }

  /** A transaction that the next block can carry, with time to spare. */
  ghost predicate CanEnter(c: ChainState, tx: Tx) {
    && tx.inputs != [] && NoDuplicates(tx.inputs) && NoDuplicates(tx.collateral)
    && (forall r :: r in tx.inputs ==> Unspent(c.entries, r))
    && (forall r :: r in tx.collateral ==> Unspent(c.entries, r))
    && InTime(tx, c.tip + 1)
  }

  /** "No funds moved" follows from the expiry evidence on every chain that the node can come to adopt. */
  ghost predicate NoFundsMovedFrom(c: ChainState, tx: Tx) {
    forall c' :: Leads(c, c') && ExpiryEvidence(c', tx, ROLLBACK_SLOTS) ==> TookNothing(c', tx)
  }

  /**
   Expiry evidence reads the inputs only. For a transaction that a block can
   still carry it proves that no funds moved exactly when no pledge is left out
   of what it reads, which the signed bytes show before the broadcast.
   */
  lemma NoFundsMovedExactly(c: ChainState, tx: Tx)
    requires ValidChain(c) && tx.validUntil.Some? && CanEnter(c, tx)
    ensures NoFundsMovedFrom(c, tx) <==> PledgesAreRead(tx)
  {
    if PledgesAreRead(tx) {
      forall c' | Leads(c, c') && ExpiryEvidence(c', tx, ROLLBACK_SLOTS) ensures TookNothing(c', tx) {
        var run :| ChainRun(run) && run[0] == c && run[|run| - 1] == c';
        RunStaysValid(run, |run| - 1);
        UnspentPledgeProvesIt(c', tx);
      }
    } else {
      var c' := FailedScriptChain(c, tx);
      assert !TookNothing(c', tx);
    }
  }

  /** The next block carries the transaction with a failed script; then the validity end and the margin pass. */
  lemma FailedScriptChain(c: ChainState, tx: Tx) returns (c': ChainState)
    requires ValidChain(c) && tx.validUntil.Some? && CanEnter(c, tx) && !PledgesAreRead(tx)
    ensures Leads(c, c') && ExpiryEvidence(c', tx, ROLLBACK_SLOTS) && !TookNothing(c', tx)
  {
    var e := Entry(tx, c.tip + 1, false);
    var carried := ChainState(c.entries + [e], c.tip + 1, if c.highest < c.tip + 1 then c.tip + 1 else c.highest);
    AppendIsValid(c.entries, e);
    assert ChainStep(c, Extend(c.tip + 1, [e]), carried);
    StepKeepsChainValid(c, Extend(c.tip + 1, [e]), carried);
    var late := tx.validUntil.value + ROLLBACK_SLOTS + 1;
    c' := ChainState(carried.entries, late, if carried.highest < late then late else carried.highest);
    assert carried.entries + [] == carried.entries;
    assert ChainStep(carried, Extend(late, []), c');
    assert Follows(c, carried) && Follows(carried, c');
    assert ChainRun([c, carried, c']);
    assert e in c'.entries && Consumed(e) == tx.collateral;
    forall r | r in tx.inputs ensures Unspent(c'.entries, r) {
      AppendKeepsUnspent(c.entries, e, r);
    }
  }

  lemma AppendIsValid(entries: seq<Entry>, e: Entry)
    requires ValidEntries(entries) && Includable(entries, e)
    ensures ValidEntries(entries + [e])
  {
    var longer := entries + [e];
    forall i | 0 <= i < |longer| ensures Includable(longer[..i], longer[i]) {
      if i < |entries| {
        assert longer[..i] == entries[..i];
      } else {
        assert longer[..i] == entries;
      }
    }
  }

  lemma AppendKeepsUnspent(entries: seq<Entry>, e: Entry, ref: OutRef)
    requires Unspent(entries, ref) && ref !in Consumed(e)
    ensures Unspent(entries + [e], ref)
  {
    assert forall x :: x in entries ==> x in entries + [e];
  }

  /** A concrete chain on which expired evidence holds although the collateral is gone. */
  lemma ExpiredCanHaveLostCollateral()
    ensures exists c: ChainState, tx: Tx :: ValidChain(c) && ExpiryEvidence(c, tx, ROLLBACK_SLOTS) && !TookNothing(c, tx)
  {
    var coin := Genesis(0, Output(0, 5, NoDatum));
    var pledge := Genesis(1, Output(0, 5, NoDatum));
    var tx := Tx([coin], [], 5, Some(10), [pledge], None, None);
    var c := ChainState([], 0, 0);
    assert CanEnter(c, tx) && !PledgesAreRead(tx);
    var c' := FailedScriptChain(c, tx);
    var run :| ChainRun(run) && run[0] == c && run[|run| - 1] == c';
    RunStaysValid(run, |run| - 1);
  }
}

/**
 The checks that run on a signed transaction before it may be journaled and
 broadcast, and what they mean for the slot wallet's balance.
 */
module AdvertCheck {
  import opened Prelude
  import opened Ledger
  import opened PublisherTables

  datatype CheckError =
    | TransactionInvalid
    | DebitExceedsApproval

  /** What the shared builder hands to the check before it submits. */
  datatype Built = Built(tx: Tx, expectedTx: Tx, advertRef: OutRef)

  /** A slot's wallet key and address, its endpoint, and the two advert addresses of its network. */
  datatype Slot = Slot(
    target: TargetId, supplierPkh: nat, wallet: Address, endpointUrl: Text,
    legacyAdverts: Address, identityAdverts: Address)

  function Lovelace(ref: OutRef): nat {
    if OutputOf(ref).Some? then OutputOf(ref).value.lovelace else 0
  }

  predicate At(ref: OutRef, wallet: Address) {
    OutputOf(ref).Some? && OutputOf(ref).value.address == wallet
  }

  function Total(refs: seq<OutRef>): nat {
    if refs == [] then 0 else Total(refs[..|refs| - 1]) + Lovelace(refs[|refs| - 1])
  }

  function Paid(outputs: seq<Output>): nat {
    if outputs == [] then 0 else Paid(outputs[..|outputs| - 1]) + outputs[|outputs| - 1].lovelace
  }

  function Listed(refs: seq<OutRef>): (inputs: seq<WalletInput>)
    ensures |inputs| == |refs|
    ensures forall i :: 0 <= i < |refs| ==> inputs[i] == WalletInput(refs[i], Lovelace(refs[i]))
  {
    if refs == [] then []
    else Listed(refs[..|refs| - 1]) + [WalletInput(refs[|refs| - 1], Lovelace(refs[|refs| - 1]))]
  }

  /** `visible` answers an output query: the chain shows the output as unspent. */
  predicate AllFrom(refs: seq<OutRef>, wallet: Address, visible: OutRef -> bool) {
    forall r :: r in refs ==> visible(r) && At(r, wallet)
  }

  predicate AllTo(outputs: seq<Output>, wallet: Address) {
    forall o :: o in outputs ==> o.address == wallet
  }

  /** Adds up the outputs that a transaction takes from the wallet, one chain query at a time. */
  method SumFromWallet(refs: seq<OutRef>, wallet: Address, visible: OutRef -> bool)
    returns (ok: bool, spent: nat, inputs: seq<WalletInput>)
    ensures ok <==> AllFrom(refs, wallet, visible)
    ensures ok ==> spent == Total(refs) && inputs == Listed(refs)
  {
    spent, inputs := 0, [];
    for n := 0 to |refs|
      invariant AllFrom(refs[..n], wallet, visible)
      invariant spent == Total(refs[..n]) && inputs == Listed(refs[..n])
    {
      var ref := refs[n];
      if !visible(ref) || !At(ref, wallet) {
        return false, spent, inputs;
      }
      assert refs[..n + 1][..n] == refs[..n] && refs[..n + 1][n] == ref;
      spent := spent + Lovelace(ref);
      inputs := inputs + [WalletInput(ref, Lovelace(ref))];
    }
    assert refs[..|refs|] == refs;
    return true, spent, inputs;
  }

  method SumOutputs(outputs: seq<Output>) returns (sum: nat)
    ensures sum == Paid(outputs)
  {
    sum := 0;
    for n := 0 to |outputs|
      invariant sum == Paid(outputs[..n])
    {
      assert outputs[..n + 1][..n] == outputs[..n];
      sum := sum + outputs[n].lovelace;
    }
    assert outputs[..|outputs|] == outputs;
  }

  /** The worst case of a script failure, going by what the transaction declares. */
  function Collateral(tx: Tx): nat {
    if tx.collateral == [] then 0
    else if tx.totalCollateral.Some? then tx.totalCollateral.value
    else Total(tx.collateral)
  }

  function Exposure(debit: int, collateral: nat): int {
    if debit > collateral then debit else collateral
  }

  // ----- The advert transaction -----

  function AdvertAddress(slot: Slot, expected: Datum): Address
    requires expected.AdvertDatum?
  {
    if expected.agent.Some? then slot.identityAdverts else slot.legacyAdverts
  }

  /** Output 0 is the approved advert: same offer and agent, at its address, holding the bond. */
  predicate IsApprovedAdvert(slot: Slot, expected: Datum, output: Output)
    requires expected.AdvertDatum?
  {
    && output.datum.AdvertDatum? && output.address == AdvertAddress(slot, expected)
    && output.lovelace >= expected.offer.supplierBond
    && output.datum.offer == expected.offer && output.datum.agent == expected.agent
  }

  /** The transaction posts the approved advert and otherwise only moves the slot wallet's own outputs. */
  predicate PostsAdvert(slot: Slot, expected: Datum, built: Built, visible: OutRef -> bool)
    requires expected.AdvertDatum?
  {
    && built.expectedTx == built.tx && built.advertRef == OutRef(built.tx, 0)
    && built.tx.outputs != [] && IsApprovedAdvert(slot, expected, built.tx.outputs[0])
    && AllTo(built.tx.outputs[1..], slot.wallet)
    && AllFrom(built.tx.inputs, slot.wallet, visible)
    && AllFrom(built.tx.collateral, slot.wallet, visible)
  }

  /** Output by output, what follows the advert pays the wallet; and input by input, the rest is the wallet's. */
  lemma SubmittedParts(slot: Slot, expected: Datum, built: Built, visible: OutRef -> bool)
    requires expected.AdvertDatum?
    ensures built.tx.outputs != [] ==>
      (AllTo(built.tx.outputs[1..], slot.wallet) <==>
         forall n :: 1 <= n < |built.tx.outputs| ==> built.tx.outputs[n].address == slot.wallet)
  {
    var tx := built.tx;
    if tx.outputs != [] {
      forall n | AllTo(tx.outputs[1..], slot.wallet) && 1 <= n < |tx.outputs| ensures tx.outputs[n].address == slot.wallet {
        assert tx.outputs[1..][n - 1] in tx.outputs[1..];
      }
    }
  }

  /** What the wallet pays when the transaction succeeds. */
  function AdvertDebit(tx: Tx): int
    requires tx.outputs != []
  {
    Total(tx.inputs) - Paid(tx.outputs[1..])
  }

  function SignedFrom(id: PublicationId, slot: Slot, expected: Datum, tx: Tx, maxDebit: nat, at: Time): SignedAdvert
    requires expected.AdvertDatum? && tx.outputs != []
  {
    SignedAdvert(id, if expected.agent.Some? then Identity else Legacy, slot.target, tx, OutRef(tx, 0),
                 AdvertAddress(slot, expected), tx.outputs[0].datum, Listed(tx.inputs), tx.fee,
                 AdvertDebit(tx), maxDebit, tx.validUntil, at)
  }

  /**
   The accepted transactions are stated on the built bytes: its one submitted
   output is the approved offer field by field, for the approved agent and at the
   address of its layout, with at least the bond of the supplier on it; all else
   comes from the wallet and goes back to it.
   */
  method CheckAdvert(id: PublicationId, slot: Slot, expected: Datum, built: Built, visible: OutRef -> bool,
                     maxDebit: nat, at: Time)
    returns (r: Result<SignedAdvert, CheckError>)
    requires expected.AdvertDatum?
    ensures r.Ok? <==>
      && PostsAdvert(slot, expected, built, visible) && AdvertDebit(built.tx) >= 0
      && Exposure(AdvertDebit(built.tx), Collateral(built.tx)) <= maxDebit
    ensures r.Ok? ==> r.value == SignedFrom(id, slot, expected, built.tx, maxDebit, at)
    ensures r == Err(TransactionInvalid) <==> !PostsAdvert(slot, expected, built, visible)
    ensures r != Err(TransactionInvalid) <==>
      && built.tx == built.expectedTx && built.advertRef == OutRef(built.tx, 0) && |built.tx.outputs| >= 1
      && (forall n :: 1 <= n < |built.tx.outputs| ==> built.tx.outputs[n].address == slot.wallet)
      && (forall ref :: ref in built.tx.inputs || ref in built.tx.collateral ==>
            visible(ref) && OutputOf(ref).Some? && OutputOf(ref).value.address == slot.wallet)
      && var advert, offer := built.tx.outputs[0], expected.offer;
         && advert.lovelace >= offer.supplierBond
         && advert.address == (if expected.agent.Some? then slot.identityAdverts else slot.legacyAdverts)
         && advert.datum.AdvertDatum? && advert.datum.agent == expected.agent
         && var posted := advert.datum.offer;
            && posted.supplierPkh == offer.supplierPkh && posted.capabilityId == offer.capabilityId && posted.model == offer.model
            && posted.maxOutputTokens == offer.maxOutputTokens && posted.maxProcessingMs == offer.maxProcessingMs
            && posted.price == offer.price && posted.supplierBond == offer.supplierBond && posted.buyerBond == offer.buyerBond
            && posted.endpointUrl == offer.endpointUrl && posted.detailUri == offer.detailUri
            && posted.detailHash == offer.detailHash && posted.active == offer.active
    ensures r.Ok? ==>
      var t := r.value;
      && t.publication == id && t.target == slot.target && (t.layout == Identity <==> expected.agent.Some?)
      && t.tx == built.tx && t.advertRef == built.advertRef && t.advertAddress == built.tx.outputs[0].address
      && t.datum == built.tx.outputs[0].datum && t.fee == built.tx.fee && t.validUntil == built.tx.validUntil
      && t.maxDebit == maxDebit && t.signedAt == at && |t.walletInputs| == |built.tx.inputs|
      && forall n :: 0 <= n < |built.tx.inputs| ==>
           t.walletInputs[n].ref == built.tx.inputs[n] && t.walletInputs[n].lovelace == OutputOf(built.tx.inputs[n]).value.lovelace
  {
    SubmittedParts(slot, expected, built, visible);
    var tx := built.tx;
    if built.expectedTx != tx || built.advertRef != OutRef(built.expectedTx, 0) {
      return Err(TransactionInvalid);
    }
    if tx.outputs == [] || !IsApprovedAdvert(slot, expected, tx.outputs[0]) {
      return Err(TransactionInvalid);
    }
    var change := tx.outputs[1..];
    if exists o :: o in change && o.address != slot.wallet {
      return Err(TransactionInvalid);
    }
    var ownInputs, spent, inputs := SumFromWallet(tx.inputs, slot.wallet, visible);
    if !ownInputs {
      return Err(TransactionInvalid);
    }
    var ownCollateral, pledged, _ := SumFromWallet(tx.collateral, slot.wallet, visible);
    if !ownCollateral {
      return Err(TransactionInvalid);
    }
    var collateral := if tx.collateral == [] then 0 else if tx.totalCollateral.Some? then tx.totalCollateral.value else pledged;
    var returned := SumOutputs(change);
    var debit: int := spent as int - returned;
    var exposure := if debit > collateral then debit else collateral;
    if debit < 0 || exposure > maxDebit {
      return Err(DebitExceedsApproval);
    }
    return Ok(SignedAdvert(id, if expected.agent.Some? then Identity else Legacy, slot.target, tx, OutRef(tx, 0),
                           AdvertAddress(slot, expected), tx.outputs[0].datum, inputs, tx.fee, debit, maxDebit,
                           tx.validUntil, at));
  }

  // ----- The retirement transaction -----

  function Others(refs: seq<OutRef>, advertRef: OutRef): seq<OutRef> {
    if refs == [] then []
    else
      var last := refs[|refs| - 1];
      Others(refs[..|refs| - 1], advertRef) + (if last == advertRef then [] else [last])
  }

  /** The advert is among the inputs, and everything else comes from and goes to the wallet of the slot. */
  predicate RetiresAdvert(slot: Slot, advertRef: OutRef, built: Built, visible: OutRef -> bool) {
    && built.expectedTx == built.tx && advertRef in built.tx.inputs
    && built.tx.outputs != [] && AllTo(built.tx.outputs, slot.wallet)
    && AllFrom(Others(built.tx.inputs, advertRef), slot.wallet, visible)
    && AllFrom(built.tx.collateral, slot.wallet, visible)
  }

  /** What the wallet adds to the deposit: below zero when it gets back more than it pays. */
  function RetireDebit(tx: Tx, advertRef: OutRef): int {
    Total(Others(tx.inputs, advertRef)) - Paid(tx.outputs)
  }

  function RetirementFrom(key: AdvertKey, advertRef: OutRef, tx: Tx, maxDebit: nat, at: Time): SignedRetirement {
    SignedRetirement(tx, key, Listed(Others(tx.inputs, advertRef)), tx.fee, RetireDebit(tx, advertRef), maxDebit,
                     tx.validUntil, at)
  }

  lemma {:induction false} OthersAre(refs: seq<OutRef>, advertRef: OutRef)
    ensures forall x :: x in Others(refs, advertRef) <==> x in refs && x != advertRef
  {
    if refs != [] {
      OthersAre(refs[..|refs| - 1], advertRef);
      assert refs == refs[..|refs| - 1] + [refs[|refs| - 1]];
    }
  }

  method CheckRetirement(key: AdvertKey, slot: Slot, advertRef: OutRef, built: Built, visible: OutRef -> bool,
                         maxDebit: nat, at: Time)
    returns (r: Result<SignedRetirement, CheckError>)
    ensures r.Ok? <==>
      && RetiresAdvert(slot, advertRef, built, visible)
      && Exposure(RetireDebit(built.tx, advertRef), Collateral(built.tx)) <= maxDebit
    ensures r.Ok? ==> r.value == RetirementFrom(key, advertRef, built.tx, maxDebit, at)
    ensures r == Err(TransactionInvalid) <==> !RetiresAdvert(slot, advertRef, built, visible)
    ensures r != Err(TransactionInvalid) <==>
      && built.tx == built.expectedTx && advertRef in built.tx.inputs && |built.tx.outputs| >= 1
      && (forall output :: output in built.tx.outputs ==> output.address == slot.wallet)
      && (forall ref :: (ref in built.tx.inputs && ref != advertRef) || ref in built.tx.collateral ==>
            visible(ref) && OutputOf(ref).Some? && OutputOf(ref).value.address == slot.wallet)
    ensures r.Ok? ==>
      var t := r.value;
      && t.tx == built.tx && t.key == key && t.fee == built.tx.fee && t.validUntil == built.tx.validUntil
      && t.maxDebit == maxDebit && t.signedAt == at
      && forall input :: input in t.walletInputs ==>
           input.ref in built.tx.inputs && input.ref != advertRef && input.lovelace == OutputOf(input.ref).value.lovelace
  {
    OthersAre(built.tx.inputs, advertRef);
    var tx := built.tx;
    if tx != built.expectedTx || advertRef !in tx.inputs {
      return Err(TransactionInvalid);
    }
    if tx.outputs == [] || exists o :: o in tx.outputs && o.address != slot.wallet {
      return Err(TransactionInvalid);
    }
    var own := Others(tx.inputs, advertRef);
    var ownInputs, spent, inputs := SumFromWallet(own, slot.wallet, visible);
    if !ownInputs {
      return Err(TransactionInvalid);
    }
    var ownCollateral, pledged, _ := SumFromWallet(tx.collateral, slot.wallet, visible);
    if !ownCollateral {
      return Err(TransactionInvalid);
    }
    var collateral := if tx.collateral == [] then 0 else if tx.totalCollateral.Some? then tx.totalCollateral.value else pledged;
    var returned := SumOutputs(tx.outputs);
    var debit: int := spent as int - returned;
    var exposure := if debit > collateral then debit else collateral;
    if exposure > maxDebit {
      return Err(DebitExceedsApproval);
    }
    return Ok(SignedRetirement(tx, key, inputs, tx.fee, debit, maxDebit, tx.validUntil, at));
  }

  // ----- The wallet's balance -----

  function TakenFrom(refs: seq<OutRef>, wallet: Address): nat {
    if refs == [] then 0
    else
      var last := refs[|refs| - 1];
      TakenFrom(refs[..|refs| - 1], wallet) + (if At(last, wallet) then Lovelace(last) else 0)
  }

  function PaidTo(outputs: seq<Output>, wallet: Address): nat {
    if outputs == [] then 0
    else
      var last := outputs[|outputs| - 1];
      PaidTo(outputs[..|outputs| - 1], wallet) + (if last.address == wallet then last.lovelace else 0)
  }

  function ReturnedTo(tx: Tx, wallet: Address): nat {
    if tx.collateralReturn.Some? && tx.collateralReturn.value.address == wallet
    then tx.collateralReturn.value.lovelace else 0
  }

  /** How the wallet's balance changes when a block carries the transaction. */
  function BalanceChange(e: Entry, wallet: Address): int {
    if e.ok then PaidTo(e.tx.outputs, wallet) - TakenFrom(e.tx.inputs, wallet)
    else ReturnedTo(e.tx, wallet) - TakenFrom(e.tx.collateral, wallet)
  }

  /** The ledger rule for a transaction that succeeds. */
  predicate Balanced(tx: Tx) {
    Total(tx.inputs) == Paid(tx.outputs) + tx.fee
  }

  /** The sum rule of CIP-40: a declared total is what the pledges are worth beyond the return. */
  predicate CollateralSum(tx: Tx) {
    tx.totalCollateral.Some? ==>
      Total(tx.collateral) == tx.totalCollateral.value +
        (if tx.collateralReturn.Some? then tx.collateralReturn.value.lovelace else 0)
  }

  /** What a caller can read from the signed bytes: no return leaves the wallet, or the pledges alone are within the approval. */
  predicate FailureCovered(tx: Tx, wallet: Address, maxDebit: int) {
    || tx.totalCollateral.None? || tx.collateralReturn.None?
    || tx.collateralReturn.value.address == wallet || Total(tx.collateral) <= maxDebit
  }

  lemma {:induction false} AllTakenFrom(refs: seq<OutRef>, wallet: Address)
    requires forall r :: r in refs ==> At(r, wallet)
    ensures TakenFrom(refs, wallet) == Total(refs)
  {
    if refs != [] {
      AllTakenFrom(refs[..|refs| - 1], wallet);
    }
  }

  lemma {:induction false} AllPaidTo(outputs: seq<Output>, wallet: Address)
    requires AllTo(outputs, wallet)
    ensures PaidTo(outputs, wallet) == Paid(outputs)
  {
    if outputs != [] {
      AllPaidTo(outputs[..|outputs| - 1], wallet);
    }
  }

  lemma {:induction false} FirstOutputApart(outputs: seq<Output>, wallet: Address)
    requires outputs != []
    ensures Paid(outputs) == outputs[0].lovelace + Paid(outputs[1..])
    ensures outputs[0].address != wallet ==> PaidTo(outputs, wallet) == PaidTo(outputs[1..], wallet)
  {
    if |outputs| > 1 {
      var front := outputs[..|outputs| - 1];
      FirstOutputApart(front, wallet);
      assert outputs[1..][..|outputs| - 2] == front[1..];
    }
  }

  /** Success: the balance falls by exactly the recorded debit, which is the deposit and the fee. */
  lemma AdvertSuccessCostsTheDebit(slot: Slot, expected: Datum, built: Built, visible: OutRef -> bool, e: Entry)
    requires expected.AdvertDatum? && PostsAdvert(slot, expected, built, visible)
    requires AdvertAddress(slot, expected) != slot.wallet
    requires e.tx == built.tx && e.ok
    ensures BalanceChange(e, slot.wallet) == -AdvertDebit(built.tx)
    ensures Balanced(built.tx) ==> AdvertDebit(built.tx) == built.tx.outputs[0].lovelace + built.tx.fee
  {
    FirstOutputApart(e.tx.outputs, slot.wallet);
    AllPaidTo(e.tx.outputs[1..], slot.wallet);
    AllTakenFrom(e.tx.inputs, slot.wallet);
  }

  lemma {:induction false} AdvertApart(refs: seq<OutRef>, advertRef: OutRef, wallet: Address)
    requires NoDuplicates(refs) && !At(advertRef, wallet)
    requires forall r :: r in Others(refs, advertRef) ==> At(r, wallet)
    ensures TakenFrom(refs, wallet) == Total(Others(refs, advertRef))
    ensures Total(refs) == Total(Others(refs, advertRef)) + (if advertRef in refs then Lovelace(advertRef) else 0)
  {
    if refs != [] {
      var front, last := refs[..|refs| - 1], refs[|refs| - 1];
      assert refs == front + [last];
      var others := Others(front, advertRef);
      assert Others(refs, advertRef) == others + (if last == advertRef then [] else [last]);
      assert forall r :: r in others ==> r in Others(refs, advertRef);
      AdvertApart(front, advertRef, wallet);
      if last == advertRef {
        assert advertRef !in front;
        assert others + [] == others;
      } else {
        assert (others + [last])[..|others|] == others;
        assert last in Others(refs, advertRef);
      }
    }
  }

  /** Success of a retirement: the wallet gains the deposit and pays the fee. */
  lemma RetirementSuccessReturnsTheDeposit(slot: Slot, advertRef: OutRef, built: Built, visible: OutRef -> bool, e: Entry)
    requires RetiresAdvert(slot, advertRef, built, visible)
    requires NoDuplicates(built.tx.inputs) && !At(advertRef, slot.wallet)
    requires e.tx == built.tx && e.ok
    ensures BalanceChange(e, slot.wallet) == -RetireDebit(built.tx, advertRef)
    ensures Balanced(built.tx) ==> RetireDebit(built.tx, advertRef) == built.tx.fee - Lovelace(advertRef)
  {
    AdvertApart(e.tx.inputs, advertRef, slot.wallet);
    AllPaidTo(e.tx.outputs, slot.wallet);
  }

  /** Script failure: the wallet loses exactly the declared total, if the return comes back to it. */
  lemma FailureCostsTheCollateral(wallet: Address, tx: Tx, e: Entry)
    requires forall r :: r in tx.collateral ==> At(r, wallet)
    requires CollateralSum(tx) && tx.collateral != [] && (tx.collateralReturn.Some? ==> tx.collateralReturn.value.address == wallet)
    requires e.tx == tx && !e.ok
    ensures tx.totalCollateral.Some? ==> BalanceChange(e, wallet) == -(Collateral(tx) as int)
    ensures BalanceChange(e, wallet) >= -(Collateral(tx) as int)
  {
    AllTakenFrom(tx.collateral, wallet);
  }

  /** The loss on script failure is within an approval that covers the counted collateral exactly when `FailureCovered`. */
  lemma FailureLossExactly(wallet: Address, tx: Tx, maxDebit: int, e: Entry)
    requires forall r :: r in tx.collateral ==> At(r, wallet)
    requires CollateralSum(tx) && Collateral(tx) <= maxDebit && tx.collateral != []
    requires e.tx == tx && !e.ok
    ensures -BalanceChange(e, wallet) <= maxDebit <==> FailureCovered(tx, wallet, maxDebit)
  {
    AllTakenFrom(tx.collateral, wallet);
  }

  /**
   A checked advert transaction that succeeds costs no more than the approval.
   When its script fails, the loss is within the approval exactly when no
   collateral return pays someone else, or the pledges alone are within it.
   */
  lemma AdvertLossWithinApprovalExactly(slot: Slot, expected: Datum, built: Built, visible: OutRef -> bool, maxDebit: nat, e: Entry)
    requires expected.AdvertDatum? && PostsAdvert(slot, expected, built, visible)
    requires Exposure(AdvertDebit(built.tx), Collateral(built.tx)) <= maxDebit
    requires AdvertAddress(slot, expected) != slot.wallet && CollateralSum(built.tx)
    requires e.tx == built.tx && (!e.ok ==> built.tx.collateral != [])
    ensures -BalanceChange(e, slot.wallet) <= maxDebit <==> e.ok || FailureCovered(built.tx, slot.wallet, maxDebit)
  {
    if e.ok {
      AdvertSuccessCostsTheDebit(slot, expected, built, visible, e);
    } else {
      FailureLossExactly(slot.wallet, built.tx, maxDebit, e);
    }
  }

  /** The same for a checked retirement. */
  lemma RetirementLossWithinApprovalExactly(slot: Slot, advertRef: OutRef, built: Built, visible: OutRef -> bool, maxDebit: nat, e: Entry)
    requires RetiresAdvert(slot, advertRef, built, visible)
    requires Exposure(RetireDebit(built.tx, advertRef), Collateral(built.tx)) <= maxDebit
    requires NoDuplicates(built.tx.inputs) && !At(advertRef, slot.wallet) && CollateralSum(built.tx)
    requires e.tx == built.tx && (!e.ok ==> built.tx.collateral != [])
    ensures -BalanceChange(e, slot.wallet) <= maxDebit <==> e.ok || FailureCovered(built.tx, slot.wallet, maxDebit)
  {
    if e.ok {
      RetirementSuccessReturnsTheDeposit(slot, advertRef, built, visible, e);
    } else {
      FailureLossExactly(slot.wallet, built.tx, maxDebit, e);
    }
  }

  /**
   The check reads no collateral return. A transaction it accepts can lose more
   than the approval on script failure when the return pays someone else.
   */
  lemma CollateralReturnIsNotChecked()
    ensures exists slot: Slot, expected: Datum, built: Built, e: Entry ::
      && expected.AdvertDatum? && PostsAdvert(slot, expected, built, _ => true)
      && AdvertDebit(built.tx) >= 0 && Exposure(AdvertDebit(built.tx), Collateral(built.tx)) <= 3
      && Balanced(built.tx) && e == Entry(built.tx, 0, false) && Includable([], e)
      && -BalanceChange(e, slot.wallet) == 100
  {
    var slot := Slot(0, 0, 0, 0, 1, 2);
    var offer := Offer(0, 0, 0, 0, 0, 0, 0, 0, 0, 0, 0, true);
    var expected := AdvertDatum(offer, 0, None);
    var coin, pledge := Genesis(0, Output(0, 3, NoDatum)), Genesis(1, Output(0, 100, NoDatum));
    var tx := Tx([coin], [Output(1, 2, expected)], 1, None, [pledge], Some(Output(9, 98, NoDatum)), Some(2));
    var built := Built(tx, tx, OutRef(tx, 0));
    var e := Entry(tx, 0, false);
    assert tx.inputs[..0] == [] && tx.collateral[..0] == [] && tx.outputs[..0] == [] && tx.outputs[1..] == [];
    assert Paid([]) == 0 && Paid(tx.outputs) == Paid([]) + 2;
    assert Total(tx.inputs) == 3 && Total(tx.collateral) == 100;
    assert TakenFrom(tx.collateral, 0) == 100;
    assert PostsAdvert(slot, expected, built, _ => true);
    assert Includable([], e);
  }
}

/** The donor's side of a donation: look the campaign up in the vault,
  * produce its next version and a donation, attach the two commands and a
  * time window. The fresh anonymous donor key, the donation's participants
  * and id, and the current instant are inputs. */
module MakeDonation {
  import opened Ledger
  import CampaignContract
  import DonationContract
  import Verification

  /** The vault query by linear id: the unconsumed campaigns carrying `ref`,
    * in vault order, each as often as the vault holds it. */
  function CampaignsWithId(vault: seq<Campaign>, ref: UniqueId): (r: seq<Campaign>)
    ensures forall c :: c in r <==> c in vault && c.linearId == ref
    ensures forall c :: multiset(r)[c] == if c.linearId == ref then multiset(vault)[c] else 0
    ensures |r| <= |vault|
  {
    if vault == [] then []
    else
      assert vault == [vault[0]] + vault[1..];
      (if vault[0].linearId == ref then [vault[0]] else []) + CampaignsWithId(vault[1..], ref)
  }

  /** `queryBy<Campaign>(linearId = ref).states.single()`. */
  function LookupCampaign(vault: seq<Campaign>, ref: UniqueId): (r: Result<Campaign>)
    ensures r.Ok? <==> |CampaignsWithId(vault, ref)| == 1
    ensures r.Ok? ==> r.value in vault && r.value.linearId == ref
  {
    Single(CampaignsWithId(vault, ref))
  }

  /** The transaction the donor proposes: the campaign found under
    * `campaignReference` is consumed; the donation and the campaign with
    * `raised + amount` are produced; `AcceptDonation` is signed by the
    * fundraiser and `Create` by donor and fundraiser; the window is centred
    * on `now`. Fails when the lookup does, or when adding the amount does
    * (another currency, or a 64-bit overflow). */
  function DonationTransaction(
    vault: seq<Campaign>, amount: Amount, campaignReference: UniqueId, donorKey: Key,
    donationParticipants: seq<AbstractParty>, donationId: UniqueId, now: Instant): Result<LedgerTx>
  {
    var campaign :- LookupCampaign(vault, campaignReference);
    var fundraiserKey := campaign.fundraiser.owningKey;
    var acceptDonation := Command(CampaignCommandData(AcceptDonation), [fundraiserKey]);
    var createDonation := Command(DonationCommandData(Create), [donorKey, fundraiserKey]);
    var donation := Donation(campaignReference, campaign.fundraiser, AbstractParty(donorKey), amount,
                             donationParticipants, donationId);
    var newRaised :- Plus(campaign.raised, amount);
    var campaignOutput := campaign.(raised := newRaised);
    Ok(LedgerTx([CampaignState(campaign)], [DonationState(donation), CampaignState(campaignOutput)],
                [acceptDonation, createDonation], Some(TimeWindow(Some(now)))))
  }

  /** `Initiator.call`, up to the point where the transaction is signed:
    * the builder is filled step by step. */
  method BuildDonationTransaction(
    vault: seq<Campaign>, amount: Amount, campaignReference: UniqueId, donorKey: Key,
    donationParticipants: seq<AbstractParty>, donationId: UniqueId, now: Instant)
    returns (r: Result<LedgerTx>)
    ensures r == DonationTransaction(vault, amount, campaignReference, donorKey,
                                     donationParticipants, donationId, now)
  {
    var lookup := LookupCampaign(vault, campaignReference);
    if lookup.Err? {
      return Err(lookup.reason);
    }
    var campaignState := lookup.value;
    var acceptDonationCommand := Command(CampaignCommandData(AcceptDonation), [campaignState.fundraiser.owningKey]);
    var createDonationCommand := Command(DonationCommandData(Create), [donorKey, campaignState.fundraiser.owningKey]);
    var donationOutputState := Donation(campaignReference, campaignState.fundraiser, AbstractParty(donorKey),
                                        amount, donationParticipants, donationId);
    var newRaised := Plus(campaignState.raised, amount);
    if newRaised.Err? {
      return Err(newRaised.reason);
    }
    var campaignOutputState := campaignState.(raised := newRaised.value);
    var utx := new TransactionBuilder();
    var items := [OutputItem(DonationState(donationOutputState)), OutputItem(CampaignState(campaignOutputState)),
                  InputItem(CampaignState(campaignState)),
                  CommandItem(acceptDonationCommand), CommandItem(createDonationCommand)];
    DonationItemsSorted(DonationState(donationOutputState), CampaignState(campaignOutputState),
                        CampaignState(campaignState), acceptDonationCommand, createDonationCommand);
    utx.WithItems(items);
    utx.SetTimeWindow(now);
    assert utx.inputs == [CampaignState(campaignState)];
    assert utx.outputs == [DonationState(donationOutputState), CampaignState(campaignOutputState)];
    assert utx.commands == [acceptDonationCommand, createDonationCommand];
    r := Ok(utx.ToLedgerTransaction());
  }

  /** The five items of the donation, in the order the flow passes them,
    * land in the builder's lists as two outputs, one input and two
    * commands. */
  lemma DonationItemsSorted(o1: State, o2: State, i1: State, c1: Command, c2: Command)
    ensures var items := [OutputItem(o1), OutputItem(o2), InputItem(i1), CommandItem(c1), CommandItem(c2)];
            OutputsOf(items) == [o1, o2] && InputsOf(items) == [i1] && CommandsOf(items) == [c1, c2]
  {
    var s4 := [CommandItem(c2)] + [];
    var s3 := [CommandItem(c1)] + s4;
    var s2 := [InputItem(i1)] + s3;
    var s1 := [OutputItem(o2)] + s2;
    var s0 := [OutputItem(o1)] + s1;
    ItemsOfCons(CommandItem(c2), []);
    ItemsOfCons(CommandItem(c1), s4);
    ItemsOfCons(InputItem(i1), s3);
    ItemsOfCons(OutputItem(o2), s2);
    ItemsOfCons(OutputItem(o1), s1);
    assert s0 == [OutputItem(o1), OutputItem(o2), InputItem(i1), CommandItem(c1), CommandItem(c2)];
  }

  // ------------------------------------------------------------------ lemmas

  /** The assembly succeeds exactly when the vault holds one campaign under
    * the reference and the amount can be added to what it has raised. */
  lemma DonationTransactionDefined(
    vault: seq<Campaign>, amount: Amount, campaignReference: UniqueId, donorKey: Key,
    ps: seq<AbstractParty>, donationId: UniqueId, now: Instant)
    ensures DonationTransaction(vault, amount, campaignReference, donorKey, ps, donationId, now).Ok? <==>
            |CampaignsWithId(vault, campaignReference)| == 1 &&
            var c := CampaignsWithId(vault, campaignReference)[0];
            amount.token == c.raised.token && c.raised.quantity + amount.quantity <= LongMax
  {
  }

  /** What the assembled transaction holds: the consumed campaign is the one
    * found under the reference; the produced campaign is that campaign with
    * only `raised` increased by the amount, so its id is the reference; the
    * donation carries the amount, the fundraiser as beneficiary, the fresh
    * key as donor and the reference; the fundraiser alone signs
    * `AcceptDonation`, donor and fundraiser sign `Create`; the window's
    * midpoint is `now`. */
  lemma DonationTransactionContents(
    vault: seq<Campaign>, amount: Amount, campaignReference: UniqueId, donorKey: Key,
    ps: seq<AbstractParty>, donationId: UniqueId, now: Instant, tx: LedgerTx)
    requires DonationTransaction(vault, amount, campaignReference, donorKey, ps, donationId, now) == Ok(tx)
    ensures |tx.inputs| == 1 && tx.inputs[0].CampaignState?
    ensures var before := tx.inputs[0].campaign;
            before in vault && before.linearId == campaignReference &&
            |tx.outputs| == 2 && tx.outputs[0].DonationState? && tx.outputs[1].CampaignState? &&
            var d := tx.outputs[0].donation;
            var after := tx.outputs[1].campaign;
            after.(raised := before.raised) == before &&
            after.raised.token == before.raised.token &&
            after.raised.quantity == before.raised.quantity + amount.quantity &&
            d.amount == amount && d.fundraiser == before.fundraiser &&
            d.donor.owningKey == donorKey && d.campaignReference == after.linearId &&
            d.participants == ps && d.linearId == donationId &&
            CampaignContract.CampaignCommandsOf(tx.commands) == [(AcceptDonation, [before.fundraiser.owningKey])] &&
            DonationContract.DonationCommandsOf(tx.commands) == [(Create, [donorKey, before.fundraiser.owningKey])] &&
            tx.timeWindow == Some(TimeWindow(Some(now)))
  {
    var c := LookupCampaign(vault, campaignReference).value;
    var acceptDonation := Command(CampaignCommandData(AcceptDonation), [c.fundraiser.owningKey]);
    var createDonation := Command(DonationCommandData(Create), [donorKey, c.fundraiser.owningKey]);
    assert tx.commands == [acceptDonation, createDonation];
    assert tx.commands[1..] == [createDonation];
    assert tx.commands[1..][1..] == [];
    assert CampaignContract.CampaignCommandsOf(tx.commands[1..]) == [];
    assert DonationContract.DonationCommandsOf(tx.commands[1..][1..]) == [];
  }

  /** The headline property: the campaign contract accepts the assembled
    * transaction exactly when the window's midpoint, the donor's `now`,
    * lies before the campaign's deadline, and otherwise refuses it for the
    * deadline. The contract's own clock is not consulted by the donation
    * rule. */
  lemma DonationTransactionPassesCampaignRule(
    vault: seq<Campaign>, amount: Amount, campaignReference: UniqueId, donorKey: Key,
    ps: seq<AbstractParty>, donationId: UniqueId, now: Instant, tx: LedgerTx, verifierNow: Instant)
    requires DonationTransaction(vault, amount, campaignReference, donorKey, ps, donationId, now) == Ok(tx)
    ensures CampaignContract.Verify(tx, verifierNow) ==
            if now < LookupCampaign(vault, campaignReference).value.deadline then Ok(())
            else Err(Requirement(CampaignContract.DeadlinePassed))
  {
    DonationTransactionContents(vault, amount, campaignReference, donorKey, ps, donationId, now, tx);
    var before := tx.inputs[0].campaign;
    var after := tx.outputs[1].campaign;
    var d := tx.outputs[0].donation;
    var fundraiserKey := before.fundraiser.owningKey;
    assert SignerSet([fundraiserKey]) == {fundraiserKey};
    assert CampaignContract.Verify(tx, verifierNow) == CampaignContract.VerifyDonation(tx, {fundraiserKey});
    CampaignContract.VerifyDonationPicks(tx, {fundraiserKey}, 1);
    IncrementChecks(before, after, d, tx.timeWindow, now);
  }

  /** The checks after the pick-out, for a campaign version that differs
    * from its predecessor only by a `raised` increased by the donation. */
  lemma IncrementChecks(before: Campaign, after: Campaign, d: Donation, window: Option<TimeWindow>, now: Instant)
    requires after.(raised := before.raised) == before
    requires after.raised.token == before.raised.token
    requires after.raised.quantity == before.raised.quantity + d.amount.quantity
    requires d.amount.token == before.raised.token && d.campaignReference == after.linearId
    requires window == Some(TimeWindow(Some(now)))
    ensures CampaignContract.DonationChecks(before, after, d, window, {before.fundraiser.owningKey}) ==
            if now < before.deadline then Ok(()) else Err(Requirement(CampaignContract.DeadlinePassed))
  {
    assert Minus(after.raised, before.raised) == Ok(d.amount);
  }

  /** The donation contract refuses the assembled transaction for a zero
    * amount, then for a donation whose participants' keys are not exactly
    * the donor's and the fundraiser's, and otherwise accepts it. */
  lemma DonationTransactionPassesDonationRule(
    vault: seq<Campaign>, amount: Amount, campaignReference: UniqueId, donorKey: Key,
    ps: seq<AbstractParty>, donationId: UniqueId, now: Instant, tx: LedgerTx)
    requires DonationTransaction(vault, amount, campaignReference, donorKey, ps, donationId, now) == Ok(tx)
    ensures DonationContract.Verify(tx) ==
            if amount.quantity == 0 then Err(Requirement(DonationContract.AmountZero))
            else if CampaignContract.KeysFromParticipants(tx.outputs[0]) !=
                    {donorKey, LookupCampaign(vault, campaignReference).value.fundraiser.owningKey}
            then Err(Requirement(DonationContract.NotSignedByParticipants))
            else Ok(())
  {
    DonationTransactionContents(vault, amount, campaignReference, donorKey, ps, donationId, now, tx);
    var fundraiserKey := tx.inputs[0].campaign.fundraiser.owningKey;
    assert SignerSet([donorKey, fundraiserKey]) == {donorKey, fundraiserKey};
    assert DonationContract.Verify(tx) == DonationContract.VerifyCreate(tx, {donorKey, fundraiserKey});
    DonationContract.CreatePicks(tx, {donorKey, fundraiserKey});
  }

  /** End to end: with a positive amount, a midpoint before the deadline
    * and a donation whose participants are donor and fundraiser, the
    * assembled transaction passes both contracts. */
  lemma DonationTransactionVerifies(
    vault: seq<Campaign>, amount: Amount, campaignReference: UniqueId, donorKey: Key,
    ps: seq<AbstractParty>, donationId: UniqueId, now: Instant, tx: LedgerTx, verifierNow: Instant)
    requires DonationTransaction(vault, amount, campaignReference, donorKey, ps, donationId, now) == Ok(tx)
    requires amount.quantity > 0
    requires now < LookupCampaign(vault, campaignReference).value.deadline
    requires CampaignContract.KeysFromParticipants(DonationState(
               Donation(campaignReference, LookupCampaign(vault, campaignReference).value.fundraiser,
                        AbstractParty(donorKey), amount, ps, donationId))) ==
             {donorKey, LookupCampaign(vault, campaignReference).value.fundraiser.owningKey}
    ensures Verification.Verifies(tx, verifierNow)
  {
    DonationTransactionContents(vault, amount, campaignReference, donorKey, ps, donationId, now, tx);
    DonationTransactionPassesCampaignRule(vault, amount, campaignReference, donorKey, ps, donationId, now, tx, verifierNow);
    DonationTransactionPassesDonationRule(vault, amount, campaignReference, donorKey, ps, donationId, now, tx);
  }
}

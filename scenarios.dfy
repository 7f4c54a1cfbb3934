/** Worked scenarios: a campaign for 1000 USD with a deadline a week away,
  * created by its fundraiser, then donations against it. Instants are in
  * seconds. */
module Scenarios {
  import opened Ledger
  import CampaignContract
  import DonationContract
  import Verification
  import MakeDonation
  import AutoOfferFlow

  const Week: int := 7 * 24 * 60 * 60

  function Usd(): Currency { Currency("USD") }
  function Fundraiser(): Party { Party(Key(1)) }
  function Recipient(): Party { Party(Key(2)) }
  function DonorKey(): Key { Key(3) }

  function BookDrive(): Campaign
  {
    CampaignContract.NewCampaign("Book drive", Amount(1000, Usd()), Fundraiser(), Recipient(),
                                 Week, "Education", UniqueId(7))
  }

  /** The donation's participants: the anonymous donor and the fundraiser. */
  function DonationParties(): seq<AbstractParty>
  {
    [AbstractParty(DonorKey()), AsAbstract(Fundraiser())]
  }

  function Donate(quantity: Quantity, at: Instant): Result<LedgerTx>
  {
    MakeDonation.DonationTransaction([BookDrive()], Amount(quantity, Usd()), UniqueId(7), DonorKey(),
                                     DonationParties(), UniqueId(8), at)
  }

  /** The vault holding only the book drive finds it under its id. */
  lemma BookDriveFound()
    ensures MakeDonation.LookupCampaign([BookDrive()], UniqueId(7)) == Ok(BookDrive())
  {
    assert MakeDonation.CampaignsWithId([BookDrive()], UniqueId(7)) == [BookDrive()];
  }

  /** The book drive, started by its fundraiser at time 0, is accepted. */
  lemma BookDriveStarts()
    ensures CampaignContract.Verify(AutoOfferFlow.StartTransaction(BookDrive(), Fundraiser().owningKey), 0) == Ok(())
  {
    AutoOfferFlow.NewCampaignStarts("Book drive", Amount(1000, Usd()), Fundraiser(), Recipient(),
                                    Week, "Education", UniqueId(7), 0);
  }

  /** A donation to the book drive is assembled whenever the amount fits. */
  lemma DonationAssembled(quantity: Quantity, at: Instant)
    requires quantity <= 1000
    ensures Donate(quantity, at).Ok?
  {
    BookDriveFound();
    MakeDonation.DonationTransactionDefined([BookDrive()], Amount(quantity, Usd()), UniqueId(7), DonorKey(),
                                            DonationParties(), UniqueId(8), at);
  }

  /** The 100 USD donation: the campaign's next version has raised 100
    * USD, and the donation is of 100 USD. */
  lemma HundredDonationContents()
    ensures Donate(100, 3600).Ok?
    ensures var tx := Donate(100, 3600).value;
            tx.outputs[1] == CampaignState(BookDrive().(raised := Amount(100, Usd()))) &&
            tx.outputs[0].donation.amount == Amount(100, Usd())
  {
    BookDriveFound();
    DonationAssembled(100, 3600);
  }

  /** The 100 USD donation passes both contracts. */
  lemma HundredDonationVerifies()
    ensures Donate(100, 3600).Ok?
    ensures Verification.Verifies(Donate(100, 3600).value, 3600)
  {
    BookDriveFound();
    DonationAssembled(100, 3600);
    var amount := Amount(100, Usd());
    var d := Donation(UniqueId(7), Fundraiser(), AbstractParty(DonorKey()), amount, DonationParties(), UniqueId(8));
    assert CampaignContract.KeysFromParticipants(DonationState(d)) == {DonorKey(), Fundraiser().owningKey};
    MakeDonation.DonationTransactionVerifies([BookDrive()], amount, UniqueId(7), DonorKey(),
                                             DonationParties(), UniqueId(8), 3600, Donate(100, 3600).value, 3600);
  }

  /** Creating the campaign at time 0 is accepted; donating 100 USD an
    * hour later yields a campaign that has raised 100 USD and is otherwise
    * unchanged, and a donation of 100 USD, and both contracts accept it. */
  lemma CreateThenDonateHundred()
    ensures CampaignContract.Verify(AutoOfferFlow.StartTransaction(BookDrive(), Fundraiser().owningKey), 0) == Ok(())
    ensures Donate(100, 3600).Ok?
    ensures var tx := Donate(100, 3600).value;
            tx.outputs[1] == CampaignState(BookDrive().(raised := Amount(100, Usd()))) &&
            tx.outputs[0].donation.amount == Amount(100, Usd()) &&
            Verification.Verifies(tx, 3600)
  {
    BookDriveStarts();
    HundredDonationContents();
    HundredDonationVerifies();
  }

  /** Donating nothing: the donation contract refuses, naming the amount. */
  lemma DonateZeroRejected()
    ensures Donate(0, 3600).Ok?
    ensures DonationContract.Verify(Donate(0, 3600).value) ==
            Err(Requirement("Donation amount cannot be zero amount"))
  {
    DonationAssembled(0, 3600);
    MakeDonation.DonationTransactionPassesDonationRule([BookDrive()], Amount(0, Usd()), UniqueId(7), DonorKey(),
                                                       DonationParties(), UniqueId(8), 3600, Donate(0, 3600).value);
  }

  /** Donating at the deadline: the campaign contract refuses, naming the
    * deadline. */
  lemma DonateAtDeadlineRejected()
    ensures Donate(100, Week).Ok?
    ensures CampaignContract.Verify(Donate(100, Week).value, Week) ==
            Err(Requirement("The donation cannot be accepted after the campaign deadline"))
  {
    BookDriveFound();
    DonationAssembled(100, Week);
    MakeDonation.DonationTransactionPassesCampaignRule([BookDrive()], Amount(100, Usd()), UniqueId(7), DonorKey(),
                                                       DonationParties(), UniqueId(8), Week,
                                                       Donate(100, Week).value, Week);
  }
}

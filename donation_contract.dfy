/** The donation contract: checks the donation side of a donation
  * transaction on its own (one donation, a campaign alongside it, a
  * positive amount, signed by the donation's participants). */
module DonationContract {
  import opened Ledger
  import CampaignContract

  // ------------------------------------------------ rejection messages
  // The texts the rules fail with, spelled as the contract spells them.

  const NoDonationCommand: string := "Required com.template.DonationContract.Commands command"
  const NotOneDonation: string := "Only one donation can be made at a time"
  const CampaignMissing: string := "There must be a campaign state when making a donation"
  const NotOneDonationOutput: string := "No input states should be consumed when making a donation"
  const AmountZero: string := "Donation amount cannot be zero amount"
  const NotSignedByParticipants: string := "The campaign must be signed by donor nad manager"

  /** The keys of the groups that `groupStates(Donation, { it.linearId })`
    * forms: one group per distinct donation id among inputs and outputs. */
  function DonationIds(states: seq<State>): set<UniqueId>
  {
    set s | s in states && s.DonationState? :: s.donation.linearId
  }

  /** The keys of the campaign groups, likewise. */
  function CampaignIds(states: seq<State>): set<UniqueId>
  {
    set s | s in states && s.CampaignState? :: s.campaign.linearId
  }

  /** The donation commands of a transaction, each with its signers. */
  function DonationCommandsOf(commands: seq<Command>): seq<(DonationCommand, seq<Key>)>
  {
    if commands == [] then []
    else
      (if commands[0].value.DonationCommandData?
       then [(commands[0].value.donationCommand, commands[0].signers)] else [])
      + DonationCommandsOf(commands[1..])
  }

  /** `requireSingleCommand<DonationContract.Commands>()`. */
  function RequireSingleCommand(commands: seq<Command>): Result<(DonationCommand, seq<Key>)>
  {
    var selected := DonationCommandsOf(commands);
    if |selected| == 0 then Err(IllegalState(NoDonationCommand))
    else Single(selected)
  }

  /** `verify`: `Create` is the only donation command there is, so the
    * "Command not found" branch cannot be taken. */
  function Verify(tx: LedgerTx): Verdict
  {
    var command :- RequireSingleCommand(tx.commands);
    match command.0
    case Create => VerifyCreate(tx, SignerSet(command.1))
  }

  /** `verifyCreate`. With a single donation group, the group's outputs are
    * all the donation outputs of the transaction. */
  function VerifyCreate(tx: LedgerTx, signers: set<Key>): Verdict
  {
    var states := tx.inputs + tx.outputs;
    if |DonationIds(states)| != 1 then
      Err(Requirement(NotOneDonation))
    else if |CampaignIds(states)| == 0 then
      Err(Requirement(CampaignMissing))
    else
      var groupOutputs := DonationsOf(tx.outputs);
      if |groupOutputs| != 1 then
        Err(Requirement(NotOneDonationOutput))
      else
        var donation := groupOutputs[0];
        if !(donation.amount.quantity > 0) then
          Err(Requirement(AmountZero))
        else if signers != CampaignContract.KeysFromParticipants(DonationState(donation)) then
          Err(Requirement(NotSignedByParticipants))
        else
          Ok(())
  }

  /** What an accepted donation creation establishes: exactly one donation
    * is produced, every donation state in the transaction carries its id,
    * some campaign state is present, the amount is positive, and the
    * signers are exactly the keys of the donation's participants. */
  ghost predicate CreateInvariants(tx: LedgerTx, signers: set<Key>)
  {
    |DonationsOf(tx.outputs)| == 1 &&
    var d := DonationsOf(tx.outputs)[0];
    (forall s :: s in tx.inputs + tx.outputs && s.DonationState? ==> s.donation.linearId == d.linearId) &&
    (exists s :: s in tx.inputs + tx.outputs && s.CampaignState?) &&
    d.amount.quantity > 0 &&
    signers == CampaignContract.KeysFromParticipants(DonationState(d))
  }

  lemma {:induction false} DonationsOfMember(states: seq<State>, d: Donation)
    ensures d in DonationsOf(states) <==> DonationState(d) in states
  {
    if states != [] {
      DonationsOfMember(states[1..], d);
      assert states == [states[0]] + states[1..];
    }
  }

  /** One donation group exactly when every donation state shares the id
    * of a donation known to be there. */
  lemma OneDonationGroup(states: seq<State>, d: Donation)
    requires DonationState(d) in states
    ensures |DonationIds(states)| == 1 <==>
            forall s :: s in states && s.DonationState? ==> s.donation.linearId == d.linearId
  {
    var ids := DonationIds(states);
    assert d.linearId in ids;
    if |ids| == 1 {
      assert |ids - {d.linearId}| == 0;
      assert ids == {d.linearId} by {
        assert ids - {d.linearId} == {};
      }
      forall s | s in states && s.DonationState?
        ensures s.donation.linearId == d.linearId
      {
        assert s.donation.linearId in ids;
      }
    }
    if forall s :: s in states && s.DonationState? ==> s.donation.linearId == d.linearId {
      assert ids == {d.linearId};
    }
  }

  /** The donation rule accepts exactly the transitions that satisfy the
    * creation invariants. */
  lemma CreateAcceptsExactly(tx: LedgerTx, signers: set<Key>)
    ensures VerifyCreate(tx, signers) == Ok(()) <==> CreateInvariants(tx, signers)
  {
    var states := tx.inputs + tx.outputs;
    if |DonationsOf(tx.outputs)| == 1 {
      var d := DonationsOf(tx.outputs)[0];
      DonationsOfMember(tx.outputs, d);
      OneDonationGroup(states, d);
      if exists s :: s in states && s.CampaignState? {
        var s :| s in states && s.CampaignState?;
        assert s.campaign.linearId in CampaignIds(states);
      }
    }
  }

  /** With one campaign consumed and a donation and a campaign produced,
    * the donation rule comes down to the amount and the signers. */
  lemma CreatePicks(tx: LedgerTx, signers: set<Key>)
    requires |tx.inputs| == 1 && tx.inputs[0].CampaignState?
    requires |tx.outputs| == 2 && tx.outputs[0].DonationState? && tx.outputs[1].CampaignState?
    ensures var d := tx.outputs[0].donation;
            VerifyCreate(tx, signers) ==
              if d.amount.quantity == 0 then Err(Requirement(AmountZero))
              else if signers != CampaignContract.KeysFromParticipants(DonationState(d))
              then Err(Requirement(NotSignedByParticipants))
              else Ok(())
  {
    var d := tx.outputs[0].donation;
    CampaignContract.CampaignsOfTwo(tx.outputs[0], tx.outputs[1]);
    assert tx.outputs == [tx.outputs[0], tx.outputs[1]];
    var states := tx.inputs + tx.outputs;
    assert states == [tx.inputs[0], tx.outputs[0], tx.outputs[1]];
    assert DonationIds(states) == {d.linearId};
    assert tx.inputs[0].campaign.linearId in CampaignIds(states);
  }

  /** The contract as a whole accepts exactly a transaction with one
    * donation command whose creation invariants hold. With no donation
    * command it fails for the missing command, and with several inside
    * `single()`. */
  lemma VerifyAcceptsExactly(tx: LedgerTx)
    ensures var commands := DonationCommandsOf(tx.commands);
            Verify(tx) == Ok(()) <==> |commands| == 1 && CreateInvariants(tx, SignerSet(commands[0].1))
    ensures |DonationCommandsOf(tx.commands)| == 0 ==> Verify(tx) == Err(IllegalState(NoDonationCommand))
    ensures |DonationCommandsOf(tx.commands)| > 1 ==>
            Verify(tx) == Err(IllegalArgument("List has more than one element."))
  {
    var commands := DonationCommandsOf(tx.commands);
    if |commands| == 1 {
      CreateAcceptsExactly(tx, SignerSet(commands[0].1));
    }
  }

  /** A donation of nothing is refused. */
  lemma ZeroDonationRejected(tx: LedgerTx, signers: set<Key>)
    requires |DonationsOf(tx.outputs)| == 1 && DonationsOf(tx.outputs)[0].amount.quantity == 0
    ensures VerifyCreate(tx, signers).Err?
  {
    CreateAcceptsExactly(tx, signers);
    AcceptedVerdict(VerifyCreate(tx, signers));
  }

  /** Unless the signers are exactly the keys of the donation's
    * participants, the donation is refused. */
  lemma DonationSignersEnforced(tx: LedgerTx, signers: set<Key>)
    requires |DonationsOf(tx.outputs)| == 1
    requires signers != CampaignContract.KeysFromParticipants(DonationState(DonationsOf(tx.outputs)[0]))
    ensures VerifyCreate(tx, signers).Err?
  {
    CreateAcceptsExactly(tx, signers);
    AcceptedVerdict(VerifyCreate(tx, signers));
  }
}

/** The ledger runs the contract of every state a transaction consumes or
  * produces: both contracts must accept a transaction that holds both kinds
  * of state. */
module Verification {
  import opened Ledger
  import CampaignContract
  import DonationContract

  predicate Verifies(tx: LedgerTx, now: Instant)
  {
    (CampaignsOf(tx.inputs + tx.outputs) != [] ==> CampaignContract.Verify(tx, now) == Ok(())) &&
    (DonationsOf(tx.inputs + tx.outputs) != [] ==> DonationContract.Verify(tx) == Ok(()))
  }

  /** The campaign contract's half: an accepted `AcceptDonation` produces
    * one campaign and one donation, and raised grows by the donated amount
    * in one currency. */
  lemma CampaignSideOfDonation(tx: LedgerTx, now: Instant, signers: seq<Key>)
    requires CampaignContract.Verify(tx, now) == Ok(())
    requires CampaignContract.CampaignCommandsOf(tx.commands) == [(AcceptDonation, signers)]
    ensures |CampaignsOf(tx.inputs)| == 1 && |CampaignsOf(tx.outputs)| == 1 && |DonationsOf(tx.outputs)| == 1
    ensures var before := CampaignsOf(tx.inputs)[0];
            var after := CampaignsOf(tx.outputs)[0];
            var d := DonationsOf(tx.outputs)[0];
            after.raised.token == before.raised.token && d.amount.token == before.raised.token &&
            after.raised.quantity == before.raised.quantity + d.amount.quantity
  {
    var s := SignerSet(signers);
    CampaignContract.DonationAcceptsExactly(tx, s);
    CampaignContract.CampaignsOfTwo(tx.outputs[0], tx.outputs[1]);
    CampaignContract.CampaignsOfOne(tx.inputs[0]);
    assert tx.outputs == [tx.outputs[0], tx.outputs[1]];
    assert tx.inputs == [tx.inputs[0]];
  }

  /** What the two contracts establish together about an accepted
    * donation under `AcceptDonation` in a transaction holding a campaign:
    * exactly one campaign is consumed and one campaign and one donation are
    * produced, the donation is positive, and the campaign's raised amount
    * grows by exactly the donated amount. */
  lemma AcceptedDonationIsPositiveAndCounted(tx: LedgerTx, now: Instant, signers: seq<Key>)
    requires Verifies(tx, now)
    requires CampaignContract.CampaignCommandsOf(tx.commands) == [(AcceptDonation, signers)]
    requires CampaignsOf(tx.inputs + tx.outputs) != []
    ensures |CampaignsOf(tx.inputs)| == 1 && |CampaignsOf(tx.outputs)| == 1 && |DonationsOf(tx.outputs)| == 1
    ensures var before := CampaignsOf(tx.inputs)[0];
            var after := CampaignsOf(tx.outputs)[0];
            var d := DonationsOf(tx.outputs)[0];
            d.amount.quantity > 0 &&
            after.raised.token == before.raised.token && d.amount.token == before.raised.token &&
            after.raised.quantity == before.raised.quantity + d.amount.quantity
  {
    StatesOfAppend(tx.inputs, tx.outputs);
    CampaignSideOfDonation(tx, now, signers);
    DonationContract.VerifyAcceptsExactly(tx);
  }
}

/** The campaign contract: the rules a transaction must satisfy to create a
  * campaign or to accept a donation into one. Each rule is an ordered chain
  * of requirements; the first one that fails is the verdict. */
module CampaignContract {
  import opened Ledger

  // ------------------------------------------------ rejection messages
  // The texts the rules fail with, spelled as the contract spells them.

  const NoCampaignCommand: string := "Required com.template.CampaignContract.Commands command"
  const StartHasInputs: string := "No input states should be consumed when creating a campaign."
  const StartNotOneOutput: string := "Only one campaign state should be produced when creating a campaign."
  const TargetNotPositive: string := "The target field of a recently created campaign should be a positive value."
  const RaisedNotZero: string := "There raised field must be 0 when starting a campaign."
  const DeadlineNotFuture: string := "The campaign deadline must be in the future."
  const NameMissing: string := "There must be a campaign name."
  const NotSignedByFundraiser: string := "The campaign must only be signed by fundraiser"
  const CategoryMissing: string := "There must be a campaign category"
  const AcceptNotOneInput: string := "An accept donation transaction must be only one input state"
  const AcceptNotTwoOutputs: string := "Two inputs state must be produced when accepting pledge"
  const DonationForOtherCampaign: string := "The donation must be for this campaign"
  const RaisedNotUpdated: string := "The raised amount must be updated by the new amount donated"
  const NameChanged: string := "The campaign name cannot be changed when accepting a donation"
  const TargetChanged: string := "The campaign target cannot be changed when accepting a donation"
  const FundraiserChanged: string := "The fundraiser cannot be changed when accepting a donation"
  const RecipientChanged: string := "The Recipient cannot be changed when accepting a donation"
  const DeadlineChanged: string := "The campaign deadline cannot be changed when accepting a donation"
  const CategoryChanged: string := "The campaign category cannot be changed when accepting a donation"
  const TimeStampMissing: string := "A time stamp is required when making a donation"
  const DeadlinePassed: string := "The donation cannot be accepted after the campaign deadline"

  /** `Campaign(name, target, fundraiser = ..., ...)` with its defaulted
    * fields: nothing raised yet in the target's currency, the fundraiser and
    * the recipient as participants. The fresh id is supplied by the caller. */
  function NewCampaign(
    name: string, target: Amount, fundraiser: Party, recipient: Party,
    deadline: Instant, category: string, linearId: UniqueId): Campaign
  {
    Campaign(name, target, Zero(target.token), fundraiser, recipient, deadline, category,
             [AsAbstract(fundraiser), AsAbstract(recipient)], linearId)
  }

  /** `keysFromParticipants`: the owning keys of a state's participants. */
  function KeysFromParticipants(s: State): set<Key>
  {
    set p | p in s.Participants() :: p.owningKey
  }

  /** The campaign commands of a transaction, each with its signers
    * (`select<CampaignContract.Commands>()`). */
  function CampaignCommandsOf(commands: seq<Command>): seq<(CampaignCommand, seq<Key>)>
  {
    if commands == [] then []
    else
      (if commands[0].value.CampaignCommandData?
       then [(commands[0].value.campaignCommand, commands[0].signers)] else [])
      + CampaignCommandsOf(commands[1..])
  }

  /** `requireSingleCommand<Commands>()`: no campaign command is an illegal
    * state; more than one fails the `single()` underneath. */
  function RequireSingleCommand(commands: seq<Command>): (r: Result<(CampaignCommand, seq<Key>)>)
  {
    var selected := CampaignCommandsOf(commands);
    if |selected| == 0 then Err(IllegalState(NoCampaignCommand))
    else Single(selected)
  }

  /** `verify`: dispatch on the single campaign command. */
  function Verify(tx: LedgerTx, now: Instant): Verdict
  {
    var command :- RequireSingleCommand(tx.commands);
    var signers := SignerSet(command.1);
    match command.0
    case Start => VerifyStart(tx, signers, now)
    case AcceptDonation => VerifyDonation(tx, signers)
    case End => Err(IllegalArgument(""))
  }

  /** `verifyStrart`: the creation rule, checked against the clock `now`. */
  function VerifyStart(tx: LedgerTx, signers: set<Key>, now: Instant): Verdict
  {
    if |tx.inputs| != 0 then
      Err(Requirement(StartHasInputs))
    else if |tx.outputs| != 1 then
      Err(Requirement(StartNotOneOutput))
    else if !tx.outputs[0].CampaignState? then
      Err(ClassCast)
    else
      var campaign := tx.outputs[0].campaign;
      if !(campaign.target.quantity > 0) then
        Err(Requirement(TargetNotPositive))
      else if campaign.raised != Zero(campaign.target.token) then
        Err(Requirement(RaisedNotZero))
      else if !(campaign.deadline > now) then
        Err(Requirement(DeadlineNotFuture))
      else if campaign.name == "" then
        Err(Requirement(NameMissing))
      else if signers != {campaign.fundraiser.owningKey} then
        Err(Requirement(NotSignedByFundraiser))
      else if campaign.category == "" then
        Err(Requirement(CategoryMissing))
      else
        Ok(())
  }

  /** `verifyDonation`: the rule for consuming one campaign version and
    * producing the next one together with a donation. */
  function VerifyDonation(tx: LedgerTx, signers: set<Key>): Verdict
  {
    if |tx.inputs| != 1 then
      Err(Requirement(AcceptNotOneInput))
    else if |tx.outputs| != 2 then
      Err(Requirement(AcceptNotTwoOutputs))
    else
      var campaignInput :- Single(CampaignsOf(tx.inputs));
      var campaignOutput :- Single(CampaignsOf(tx.outputs));
      var donationOutput :- Single(DonationsOf(tx.outputs));
      DonationChecks(campaignInput, campaignOutput, donationOutput, tx.timeWindow, signers)
  }

  /** The checks of `verifyDonation` once the consumed campaign, the
    * produced campaign and the donation have been picked out. */
  function DonationChecks(
    campaignInput: Campaign, campaignOutput: Campaign, donationOutput: Donation,
    timeWindow: Option<TimeWindow>, signers: set<Key>): Verdict
  {
    var changeInAmountRaised :- Minus(campaignOutput.raised, campaignInput.raised);
    if donationOutput.campaignReference != campaignOutput.linearId then
      Err(Requirement(DonationForOtherCampaign))
    else if changeInAmountRaised != donationOutput.amount then
      Err(Requirement(RaisedNotUpdated))
    else if campaignInput.name != campaignOutput.name then
      Err(Requirement(NameChanged))
    else if campaignInput.target != campaignOutput.target then
      Err(Requirement(TargetChanged))
    else if campaignInput.fundraiser != campaignOutput.fundraiser then
      Err(Requirement(FundraiserChanged))
    else if campaignInput.recipient != campaignOutput.recipient then
      Err(Requirement(RecipientChanged))
    else if campaignInput.deadline != campaignOutput.deadline then
      Err(Requirement(DeadlineChanged))
    else if campaignInput.category != campaignOutput.category then
      Err(Requirement(CategoryChanged))
    else if timeWindow.None? || timeWindow.value.midpoint.None? then
      Err(IllegalArgument(TimeStampMissing))
    else if !(timeWindow.value.midpoint.value < campaignOutput.deadline) then
      Err(Requirement(DeadlinePassed))
    else
      RequireSoleSigner(signers, campaignOutput.fundraiser.owningKey, NotSignedByFundraiser)
  }

  /** `message using (signers.single() == key)`: `single()` on the set of
    * signers throws when it is empty or holds more than one key; otherwise
    * its one key must be `key`. */
  function RequireSoleSigner(signers: set<Key>, key: Key, message: string): (r: Verdict)
    ensures r == Ok(()) <==> signers == {key}
    ensures |signers| == 0 ==> r == Err(NoSuchElement("Collection is empty."))
    ensures |signers| > 1 ==> r == Err(IllegalArgument("Collection has more than one element."))
    ensures |signers| == 1 && signers != {key} ==> r == Err(Requirement(message))
  {
    SingletonSet(signers, key);
    if |signers| == 0 then Err(NoSuchElement("Collection is empty."))
    else if |signers| > 1 then Err(IllegalArgument("Collection has more than one element."))
    else if key !in signers then Err(Requirement(message))
    else Ok(())
  }

  // ------------------------------------------------ the rules, declaratively

  /** What an accepted creation establishes: nothing consumed, one campaign
    * produced, with a positive target, nothing raised, a future deadline, a
    * name and a category, signed by the fundraiser alone. */
  ghost predicate CreationInvariants(tx: LedgerTx, signers: set<Key>, now: Instant)
  {
    tx.inputs == [] &&
    |tx.outputs| == 1 && tx.outputs[0].CampaignState? &&
    var c := tx.outputs[0].campaign;
    c.target.quantity > 0 &&
    c.raised.quantity == 0 && c.raised.token == c.target.token &&
    now < c.deadline &&
    |c.name| > 0 && |c.category| > 0 &&
    signers == {c.fundraiser.owningKey}
  }

  /** One donation step from campaign version `before` to `after`, with
    * donation `d`: the raised amount grows by exactly the donated amount in
    * the same currency, the donation refers to the new version, the
    * descriptive fields are unchanged, the window's midpoint lies before
    * the deadline, and the fundraiser alone signs. The ids and participants
    * of the two versions are not related. */
  ghost predicate DonationStep(
    before: Campaign, after: Campaign, d: Donation, window: Option<TimeWindow>, signers: set<Key>)
  {
    after.raised.token == before.raised.token &&
    d.amount.token == before.raised.token &&
    after.raised.quantity == before.raised.quantity + d.amount.quantity &&
    d.campaignReference == after.linearId &&
    after.name == before.name && after.target == before.target &&
    after.fundraiser == before.fundraiser && after.recipient == before.recipient &&
    after.deadline == before.deadline && after.category == before.category &&
    window.Some? && window.value.midpoint.Some? && window.value.midpoint.value < after.deadline &&
    signers == {after.fundraiser.owningKey}
  }

  /** What an accepted donation establishes: one campaign consumed, one
    * campaign and one donation produced (in either order), related by a
    * donation step. */
  ghost predicate AcceptanceInvariants(tx: LedgerTx, signers: set<Key>)
  {
    |tx.inputs| == 1 && tx.inputs[0].CampaignState? && |tx.outputs| == 2 &&
    var before := tx.inputs[0].campaign;
    (tx.outputs[0].CampaignState? && tx.outputs[1].DonationState? &&
     DonationStep(before, tx.outputs[0].campaign, tx.outputs[1].donation, tx.timeWindow, signers)) ||
    (tx.outputs[1].CampaignState? && tx.outputs[0].DonationState? &&
     DonationStep(before, tx.outputs[1].campaign, tx.outputs[0].donation, tx.timeWindow, signers))
  }

  /** What the contract as a whole accepts: exactly one campaign command,
    * which is `Start` with a valid creation or `AcceptDonation` with a
    * valid donation step. `End` is never accepted. */
  ghost predicate ContractInvariants(tx: LedgerTx, now: Instant)
  {
    var commands := CampaignCommandsOf(tx.commands);
    |commands| == 1 &&
    match commands[0].0
    case Start => CreationInvariants(tx, SignerSet(commands[0].1), now)
    case AcceptDonation => AcceptanceInvariants(tx, SignerSet(commands[0].1))
    case End => false
  }

  // ------------------------------------------------------------------ lemmas

  lemma SingletonSet(s: set<Key>, k: Key)
    ensures (|s| == 1 && k in s) <==> s == {k}
  {
    if |s| == 1 && k in s {
      assert |s - {k}| == 0;
      assert s - {k} == {};
    }
  }

  /** The creation rule accepts exactly the transitions that satisfy the
    * creation invariants. */
  lemma StartAcceptsExactly(tx: LedgerTx, signers: set<Key>, now: Instant)
    ensures VerifyStart(tx, signers, now) == Ok(()) <==> CreationInvariants(tx, signers, now)
  {
  }

  lemma CampaignsOfOne(a: State)
    ensures CampaignsOf([a]) == if a.CampaignState? then [a.campaign] else []
    ensures DonationsOf([a]) == if a.DonationState? then [a.donation] else []
  {
    assert [a][1..] == [];
  }

  lemma CampaignsOfTwo(a: State, b: State)
    ensures CampaignsOf([a, b]) ==
      (if a.CampaignState? then [a.campaign] else []) + (if b.CampaignState? then [b.campaign] else [])
    ensures DonationsOf([a, b]) ==
      (if a.DonationState? then [a.donation] else []) + (if b.DonationState? then [b.donation] else [])
  {
    assert [a, b][1..] == [b];
    CampaignsOfOne(b);
  }

  /** Once the three states are picked out, the remaining checks accept
    * exactly a donation step. */
  lemma ChecksAcceptExactly(
    before: Campaign, after: Campaign, d: Donation, window: Option<TimeWindow>, signers: set<Key>)
    ensures DonationChecks(before, after, d, window, signers) == Ok(()) <==>
            DonationStep(before, after, d, window, signers)
  {
    MinusIsPartialInverse(after.raised, before.raised, d.amount);
  }

  /** The donation rule, with its ordered checks and the exceptions raised
    * by `single()` and by amount subtraction along the way, accepts exactly
    * the transitions that satisfy the acceptance invariants. */
  lemma {:induction false} DonationAcceptsExactly(tx: LedgerTx, signers: set<Key>)
    ensures VerifyDonation(tx, signers) == Ok(()) <==> AcceptanceInvariants(tx, signers)
  {
    if |tx.inputs| == 1 && |tx.outputs| == 2 {
      var a, b := tx.outputs[0], tx.outputs[1];
      assert tx.outputs == [a, b];
      CampaignsOfTwo(a, b);
      var i := tx.inputs[0];
      assert tx.inputs == [i];
      CampaignsOfOne(i);
      if i.CampaignState? && a.CampaignState? && b.DonationState? {
        ChecksAcceptExactly(i.campaign, a.campaign, b.donation, tx.timeWindow, signers);
      } else if i.CampaignState? && b.CampaignState? && a.DonationState? {
        ChecksAcceptExactly(i.campaign, b.campaign, a.donation, tx.timeWindow, signers);
      }
    }
  }

  /** With one campaign consumed and a campaign (at `j`) and a donation
    * produced, in either order, the donation rule comes down to the checks
    * on those three. */
  lemma VerifyDonationPicks(tx: LedgerTx, signers: set<Key>, j: nat)
    requires |tx.inputs| == 1 && tx.inputs[0].CampaignState?
    requires |tx.outputs| == 2 && j < 2 && tx.outputs[j].CampaignState? && tx.outputs[1 - j].DonationState?
    ensures VerifyDonation(tx, signers) ==
            DonationChecks(tx.inputs[0].campaign, tx.outputs[j].campaign, tx.outputs[1 - j].donation,
                           tx.timeWindow, signers)
  {
    CampaignsOfTwo(tx.outputs[0], tx.outputs[1]);
    CampaignsOfOne(tx.inputs[0]);
    assert tx.outputs == [tx.outputs[0], tx.outputs[1]];
    assert tx.inputs == [tx.inputs[0]];
  }

  /** The contract accepts exactly the transitions that carry one campaign
    * command and satisfy the invariants of the rule it names. */
  lemma VerifyAcceptsExactly(tx: LedgerTx, now: Instant)
    ensures Verify(tx, now) == Ok(()) <==> ContractInvariants(tx, now)
  {
    var commands := CampaignCommandsOf(tx.commands);
    if |commands| == 1 {
      StartAcceptsExactly(tx, SignerSet(commands[0].1), now);
      DonationAcceptsExactly(tx, SignerSet(commands[0].1));
    }
  }

  /** `End` is declared but has no rule: a transaction whose campaign
    * command is `End` is refused, whatever else it holds. */
  lemma EndIsRejected(tx: LedgerTx, now: Instant, signers: seq<Key>)
    requires CampaignCommandsOf(tx.commands) == [(End, signers)]
    ensures Verify(tx, now) == Err(IllegalArgument(""))
  {
  }

  /** A donation step never lowers the amount raised, and adds a positive
    * amount exactly when the donation is positive. */
  lemma AcceptedDonationRaises(tx: LedgerTx, signers: set<Key>)
    requires VerifyDonation(tx, signers) == Ok(())
    ensures var after := CampaignsOf(tx.outputs)[0];
            var d := DonationsOf(tx.outputs)[0];
            tx.inputs[0].CampaignState? &&
            tx.inputs[0].campaign.raised.quantity <= after.raised.quantity &&
            after.raised.quantity - tx.inputs[0].campaign.raised.quantity == d.amount.quantity
  {
    DonationAcceptsExactly(tx, signers);
    CampaignsOfTwo(tx.outputs[0], tx.outputs[1]);
    assert tx.outputs == [tx.outputs[0], tx.outputs[1]];
  }

  /** Deadline enforcement: a donation whose window has no midpoint, or
    * whose midpoint is at or after the deadline of the produced campaign,
    * is refused. */
  lemma DeadlineEnforced(tx: LedgerTx, signers: set<Key>, i: nat)
    requires |tx.outputs| == 2 && i < 2 && tx.outputs[i].CampaignState?
    requires tx.timeWindow.None? || tx.timeWindow.value.midpoint.None? ||
             tx.timeWindow.value.midpoint.value >= tx.outputs[i].campaign.deadline
    ensures VerifyDonation(tx, signers).Err?
  {
    DonationAcceptsExactly(tx, signers);
    AcceptedVerdict(VerifyDonation(tx, signers));
  }

  /** Signer enforcement: unless the signers are exactly the produced
    * campaign's fundraiser key, the donation is refused. */
  lemma DonationSignerEnforced(tx: LedgerTx, signers: set<Key>, i: nat)
    requires |tx.outputs| == 2 && i < 2 && tx.outputs[i].CampaignState?
    requires signers != {tx.outputs[i].campaign.fundraiser.owningKey}
    ensures VerifyDonation(tx, signers).Err?
  {
    DonationAcceptsExactly(tx, signers);
    AcceptedVerdict(VerifyDonation(tx, signers));
  }

  /** A campaign state with another id and other participants; a donation
    * state as it is. */
  function Relabelled(s: State, id: UniqueId, ps: seq<AbstractParty>): State
  {
    if s.CampaignState? then CampaignState(s.campaign.(linearId := id, participants := ps)) else s
  }

  /** A campaign state with other participants; a donation state as it is. */
  function Repartnered(s: State, ps: seq<AbstractParty>): State
  {
    if s.CampaignState? then CampaignState(s.campaign.(participants := ps)) else s
  }

  /** Once the states are picked out, the id of the consumed version and
    * the participants of both versions are not looked at. */
  lemma ChecksIgnoreIdsAndParticipants(
    before: Campaign, after: Campaign, d: Donation, window: Option<TimeWindow>, signers: set<Key>,
    otherId: UniqueId, ps: seq<AbstractParty>, qs: seq<AbstractParty>)
    ensures DonationChecks(before.(linearId := otherId, participants := ps), after.(participants := qs),
                           d, window, signers) ==
            DonationChecks(before, after, d, window, signers)
  {
  }

  /** When the three picks cannot all be made, the rule fails on the first
    * `single()` that fails, which depends only on how many states of each
    * kind there are. */
  lemma SamePicksFail(tx: LedgerTx, tx': LedgerTx, signers: set<Key>)
    requires |tx.inputs| == 1 && |tx.outputs| == 2
    requires |CampaignsOf(tx'.inputs)| == |CampaignsOf(tx.inputs)|
    requires |CampaignsOf(tx'.outputs)| == |CampaignsOf(tx.outputs)|
    requires DonationsOf(tx'.outputs) == DonationsOf(tx.outputs)
    requires |tx'.inputs| == 1 && |tx'.outputs| == 2
    requires !(|CampaignsOf(tx.inputs)| == 1 && |CampaignsOf(tx.outputs)| == 1 && |DonationsOf(tx.outputs)| == 1)
    ensures VerifyDonation(tx', signers) == VerifyDonation(tx, signers)
  {
  }

  /** The relabelling argument for a transaction of the rule's shape: one
    * input and two outputs. */
  lemma RelabelledVerdict(
    tx: LedgerTx, tx': LedgerTx, signers: set<Key>, otherId: UniqueId, ps: seq<AbstractParty>, qs: seq<AbstractParty>)
    requires |tx.inputs| == 1 && |tx.outputs| == 2
    requires tx'.inputs == [Relabelled(tx.inputs[0], otherId, ps)]
    requires tx'.outputs == [Repartnered(tx.outputs[0], qs), Repartnered(tx.outputs[1], qs)]
    requires tx'.timeWindow == tx.timeWindow
    ensures VerifyDonation(tx', signers) == VerifyDonation(tx, signers)
  {
    var i, a, b := tx.inputs[0], tx.outputs[0], tx.outputs[1];
    if i.CampaignState? && a.CampaignState? && b.DonationState? {
      RelabelledPicked(tx, tx', signers, otherId, ps, qs, 0);
    } else if i.CampaignState? && b.CampaignState? && a.DonationState? {
      RelabelledPicked(tx, tx', signers, otherId, ps, qs, 1);
    } else {
      assert tx.inputs == [i] && tx.outputs == [a, b];
      CampaignsOfOne(i);
      CampaignsOfOne(tx'.inputs[0]);
      CampaignsOfTwo(a, b);
      CampaignsOfTwo(tx'.outputs[0], tx'.outputs[1]);
      SamePicksFail(tx, tx', signers);
    }
  }

  /** The relabelling argument once the three picks succeed, with the
    * produced campaign at `j`. */
  lemma RelabelledPicked(
    tx: LedgerTx, tx': LedgerTx, signers: set<Key>, otherId: UniqueId, ps: seq<AbstractParty>, qs: seq<AbstractParty>,
    j: nat)
    requires |tx.inputs| == 1 && |tx.outputs| == 2 && j < 2
    requires tx.inputs[0].CampaignState? && tx.outputs[j].CampaignState? && tx.outputs[1 - j].DonationState?
    requires tx'.inputs == [Relabelled(tx.inputs[0], otherId, ps)]
    requires tx'.outputs == [Repartnered(tx.outputs[0], qs), Repartnered(tx.outputs[1], qs)]
    requires tx'.timeWindow == tx.timeWindow
    ensures VerifyDonation(tx', signers) == VerifyDonation(tx, signers)
  {
    VerifyDonationPicks(tx, signers, j);
    VerifyDonationPicks(tx', signers, j);
    ChecksIgnoreIdsAndParticipants(tx.inputs[0].campaign, tx.outputs[j].campaign, tx.outputs[1 - j].donation,
                                   tx.timeWindow, signers, otherId, ps, qs);
  }

  /** Only the listed fields are compared: giving every consumed campaign
    * another id and other participants, and every produced campaign other
    * participants, leaves the donation rule's verdict as it was. */
  lemma IdsAndParticipantsNotCompared(
    tx: LedgerTx, signers: set<Key>, otherId: UniqueId, ps: seq<AbstractParty>, qs: seq<AbstractParty>)
    ensures
      var tx' := tx.(inputs := seq(|tx.inputs|, k requires 0 <= k < |tx.inputs| => Relabelled(tx.inputs[k], otherId, ps)),
                     outputs := seq(|tx.outputs|, k requires 0 <= k < |tx.outputs| => Repartnered(tx.outputs[k], qs)));
      VerifyDonation(tx', signers) == VerifyDonation(tx, signers)
  {
    var tx' := tx.(inputs := seq(|tx.inputs|, k requires 0 <= k < |tx.inputs| => Relabelled(tx.inputs[k], otherId, ps)),
                   outputs := seq(|tx.outputs|, k requires 0 <= k < |tx.outputs| => Repartnered(tx.outputs[k], qs)));
    if |tx.inputs| == 1 && |tx.outputs| == 2 {
      assert tx'.inputs == [Relabelled(tx.inputs[0], otherId, ps)];
      assert tx'.outputs == [Repartnered(tx.outputs[0], qs), Repartnered(tx.outputs[1], qs)];
      RelabelledVerdict(tx, tx', signers, otherId, ps, qs);
    }
  }
}

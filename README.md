# Crowdfunding contracts on a shared ledger — a Dafny model

This project models the part of the crowdfunding CorDapp that decides which
ledger transitions are legal, and the steps that build the transitions meant to
pass those rules:

- **`CampaignContract`** (`Campaign.kt`). `Verify` dispatches on the single
  campaign command. `Start` runs the creation rule `VerifyStart` against the
  verifier's clock `now`. `AcceptDonation` runs the donation rule
  `VerifyDonation`. `End` is refused. Each rule is the source's ordered
  requirement chain, so the verdict is `Ok(())` or `Err(reason)` with the first
  failing requirement. The exceptions raised on the way are distinct reasons:
  `single()` on a list or set, the `as Campaign` cast, and amount subtraction.
  The default-filled `Campaign(...)` constructor is `NewCampaign`, and
  `keysFromParticipants` is `KeysFromParticipants`.
- **`DonationContract`** (`MakeDonation.kt:19-54`). It checks the donation
  side of the same transition: one donation group, a campaign present, one
  donation output, a positive amount, and signers equal to the donation's
  participant keys. `Verification.Verifies` says that a transaction holding
  both kinds of state must pass both contracts.
- **`MakeDonation`** (`MakeDonation.kt:74-119`). It looks the campaign up in
  the vault by id and produces the next campaign version, with `raised`
  increased, and a donation. It attaches the two commands with their signers
  and a time window centred on the current instant. `DonationTransaction` is
  the specification. `BuildDonationTransaction` fills a `TransactionBuilder`
  step by step, as the flow does.
- **`AutoOfferFlow`** (`StartCampaign.kt`). It builds the creation transaction
  and chooses the broadcast recipients: everyone in the network map, minus the
  notaries, minus the transaction's participants resolved to well-known
  identities. It opens one session per recipient and sends the transaction on
  each.
- **`Ledger`** holds the ledger vocabulary these are written against:
  - 64-bit amounts with a currency;
  - keys and parties, compared by owning key as the ledger compares them;
  - linear ids, the two state records, commands, and resolved transactions;
  - the mutable `TransactionBuilder`.
- **`Scenarios`** works through one campaign: it is created for 1000 USD, then
  receives donations of 100 USD, of 0 USD, and at the deadline.

These are inputs and not modelled: the clock (`Instant.now()`), the vault's
contents, the fresh anonymous donor key, the network map, the notary set and
the identity service's resolution of participants.

Points where the code behaves in a way worth noting:
- The donation contract requires the signers to equal the keys of the
  donation's participants (`MakeDonation.kt:51`). Which keys those are depends
  on how the donation was built. The flow builds it with the donor's fresh key
  and the fundraiser.
- An unhandled campaign command such as `End` is refused with
  `IllegalArgumentException("")`, which carries no message (`Campaign.kt:30`).
- The rejection messages are kept exactly as the contracts spell them,
  including their typos, for example "The campaign must be signed by donor nad
  manager".
- The campaign id is **not** compared between the consumed and the produced
  version, and neither are the participants (`Campaign.kt:58-63`).
  `IdsAndParticipantsNotCompared` states this.
- `setTimeWindow(now, 30.seconds)` centres the window on `now`. The donation
  rule reads only the window's midpoint.
- The broadcast does not remove the caller, although its comment says it does
  (`StartCampaign.kt:54`). The caller is excluded only as a participant
  (`CallerNotExcluded`).
- The requirement message at `MakeDonation.kt:46` talks of inputs, but the
  check counts the donation group's outputs.

## Model

| member | source | states |
|---|---|---|
| `CampaignContract.VerifyAcceptsExactly` | cordapp-contracts-states/src/main/kotlin/com/template/Campaign.kt:23-31 | the contract accepts exactly when there is one campaign command and it is `Start` with a valid creation or `AcceptDonation` with a valid donation step; `End`, no command, or two commands are refused |
| `CampaignContract.EndIsRejected` | cordapp-contracts-states/src/main/kotlin/com/template/Campaign.kt:27-31 | a transaction whose campaign command is `End` is refused with `IllegalArgumentException("")`, whatever else it holds |
| `CampaignContract.StartAcceptsExactly` | cordapp-contracts-states/src/main/kotlin/com/template/Campaign.kt:34-45 | the creation rule accepts exactly these: no inputs, one campaign output, target > 0, nothing raised in the target's currency, deadline after `now`, non-empty name and category, signers exactly {fundraiser key} |
| `CampaignContract.DonationAcceptsExactly` | cordapp-contracts-states/src/main/kotlin/com/template/Campaign.kt:47-73 | the donation rule, including the exceptions from `single()` and amount subtraction, accepts exactly these: one campaign input; one campaign and one donation output, in either order; raised grows by the donated amount in one currency; the donation refers to the new version; the six fields unchanged; a midpoint before the deadline; signers exactly {fundraiser key} |
| `CampaignContract.VerifyDonationPicks` | cordapp-contracts-states/src/main/kotlin/com/template/Campaign.kt:48-52 | with one campaign consumed and a campaign and a donation produced, in either order, the `single()` picks succeed and the rule's verdict is that of the remaining checks on those three states |
| `CampaignContract.ChecksAcceptExactly` | cordapp-contracts-states/src/main/kotlin/com/template/Campaign.kt:54-71 | the checks after the picks accept exactly a donation step: raised grows by the donated amount in one currency, the donation refers to the new version, the six fields unchanged, a midpoint before the deadline, signers exactly {fundraiser key} |
| `CampaignContract.RequireSoleSigner` | cordapp-contracts-states/src/main/kotlin/com/template/Campaign.kt:71 | `signers.single() == key` passes exactly when the signer set is {key}. An empty set fails with "Collection is empty." and a larger set with "Collection has more than one element.", both inside `single()`. A single other key fails the requirement with its message |
| `CampaignContract.AcceptedDonationRaises` | cordapp-contracts-states/src/main/kotlin/com/template/Campaign.kt:54-56 | after an accepted donation step, raised has not decreased, and new raised minus old raised equals the donation's amount |
| `CampaignContract.DeadlineEnforced` | cordapp-contracts-states/src/main/kotlin/com/template/Campaign.kt:66-68 | with two outputs and a campaign at either position, a donation step without a time window, without a midpoint, or with a midpoint at or after that campaign's deadline is refused |
| `CampaignContract.DonationSignerEnforced` | cordapp-contracts-states/src/main/kotlin/com/template/Campaign.kt:71 | with two outputs and a campaign at either position, a donation step whose signers are not exactly that campaign's fundraiser key is refused |
| `CampaignContract.IdsAndParticipantsNotCompared` | cordapp-contracts-states/src/main/kotlin/com/template/Campaign.kt:47-73 | for any transaction, giving every consumed campaign another id and other participants, and every produced campaign other participants, leaves the donation rule's verdict (acceptance or the exact refusal) unchanged |
| `Ledger.MinusInvertsPlus` | cordapp-contracts-states/src/main/kotlin/com/template/Campaign.kt:54 | subtracting the old raised amount from the sum the assembly produced gives back the donated amount |
| `Ledger.MinusIsPartialInverse` | cordapp-contracts-states/src/main/kotlin/com/template/Campaign.kt:54 | `a - b` succeeds with `d` exactly when `b + d` succeeds with `a` (same currency, no negative result, no 64-bit overflow) |
| `DonationContract.CreateAcceptsExactly` | cordapp-contracts-states/src/main/kotlin/com/template/MakeDonation.kt:38-53 | the donation rule accepts exactly these: one donation output, every donation state carrying its id, some campaign state present, amount > 0, signers equal to the keys of the donation's participants |
| `DonationContract.VerifyAcceptsExactly` | cordapp-contracts-states/src/main/kotlin/com/template/MakeDonation.kt:28-36 | the contract accepts exactly when there is one donation command and the creation invariants hold under its signers; no donation command fails with "Required com.template.DonationContract.Commands command", and several fail inside `single()` |
| `DonationContract.CreatePicks` | cordapp-contracts-states/src/main/kotlin/com/template/MakeDonation.kt:38-53 | with one campaign consumed and a donation and a campaign produced, the rule refuses a zero amount, then signers other than the donation's participant keys, and otherwise accepts |
| `DonationContract.OneDonationGroup` | cordapp-contracts-states/src/main/kotlin/com/template/MakeDonation.kt:40-41 | grouping by id gives one donation group exactly when every donation state shares one donation's id |
| `DonationContract.ZeroDonationRejected` | cordapp-contracts-states/src/main/kotlin/com/template/MakeDonation.kt:49 | a donation of quantity zero is refused |
| `DonationContract.DonationSignersEnforced` | cordapp-contracts-states/src/main/kotlin/com/template/MakeDonation.kt:51 | signers other than the keys of the donation's participants are refused |
| `Verification.CampaignSideOfDonation` | cordapp-contracts-states/src/main/kotlin/com/template/Campaign.kt:23-73 | when the campaign contract accepts an `AcceptDonation`, one campaign is consumed, one campaign and one donation are produced, and raised grows by the donated amount in one currency |
| `Verification.AcceptedDonationIsPositiveAndCounted` | cordapp-contracts-states/src/main/kotlin/com/template/MakeDonation.kt:28-53 | when both contracts accept a transaction that holds a campaign and whose campaign command is `AcceptDonation`, exactly one campaign is consumed, one campaign and one donation are produced, the donation is positive, and raised grows by exactly the donated amount |
| `MakeDonation.CampaignsWithId` | cordapp-contracts-states/src/main/kotlin/com/template/MakeDonation.kt:79-81 | the vault query returns exactly the vault's campaigns that carry the requested id, each as many times as the vault holds it |
| `MakeDonation.LookupCampaign` | cordapp-contracts-states/src/main/kotlin/com/template/MakeDonation.kt:81 | the lookup succeeds exactly when one campaign carries the id, and the campaign it returns is in the vault under that id |
| `MakeDonation.BuildDonationTransaction` | cordapp-contracts-states/src/main/kotlin/com/template/MakeDonation.kt:81-119 | filling the builder step by step yields exactly `DonationTransaction`, including its failures |
| `MakeDonation.DonationTransactionDefined` | cordapp-contracts-states/src/main/kotlin/com/template/MakeDonation.kt:81-107 | assembly succeeds exactly when one campaign has the id and the amount is in its currency and does not overflow `raised` |
| `MakeDonation.DonationTransactionContents` | cordapp-contracts-states/src/main/kotlin/com/template/MakeDonation.kt:98-119 | the input is the looked-up campaign; the output campaign differs from it only by `raised` + amount; the donation carries the amount, the fundraiser, the fresh key and the output's id; `AcceptDonation` is signed by [fundraiser] and `Create` by [donor, fundraiser]; the midpoint is `now` |
| `MakeDonation.DonationTransactionPassesCampaignRule` | cordapp-contracts-states/src/main/kotlin/com/template/MakeDonation.kt:98-119 | the campaign contract accepts the assembled transaction when the donor's `now` is before the campaign's deadline, and otherwise refuses it with "The donation cannot be accepted after the campaign deadline"; no other check can fail |
| `MakeDonation.DonationTransactionPassesDonationRule` | cordapp-contracts-states/src/main/kotlin/com/template/MakeDonation.kt:99-103 | the donation contract refuses the assembled transaction with "Donation amount cannot be zero amount" for a zero amount, then with the signer message when the donation's participant keys are not {donor key, fundraiser key}, and otherwise accepts it |
| `MakeDonation.DonationTransactionVerifies` | cordapp-contracts-states/src/main/kotlin/com/template/MakeDonation.kt:98-119 | with amount > 0, `now` before the deadline and donor and fundraiser as the donation's participants, the assembled transaction passes both contracts |
| `Ledger.TransactionBuilder.WithItems` | cordapp-contracts-states/src/main/kotlin/com/template/MakeDonation.kt:111-118 | each item is appended, in order, to the inputs, outputs or commands according to its kind; the time window is untouched |
| `MakeDonation.DonationItemsSorted` | cordapp-contracts-states/src/main/kotlin/com/template/MakeDonation.kt:111-118 | the flow's five items, in the order given, land as outputs [donation, campaign], inputs [campaign] and commands [AcceptDonation, Create] |
| `Ledger.TransactionBuilder.SetTimeWindow` | cordapp-contracts-states/src/main/kotlin/com/template/MakeDonation.kt:119 | the window's midpoint becomes the given instant; nothing else changes |
| `AutoOfferFlow.BuildStartTransaction` | cordapp-contracts-states/src/main/kotlin/com/template/StartCampaign.kt:35-38 | the creation transaction has no inputs, the supplied campaign as its only output, and a `Start` command signed by the caller's key alone |
| `AutoOfferFlow.StartTransactionVerdict` | cordapp-contracts-states/src/main/kotlin/com/template/StartCampaign.kt:35-38 | the creation transaction is accepted exactly when the caller's key is the fundraiser's and the campaign is well formed at `now` |
| `AutoOfferFlow.OnlyFundraiserCanStart` | cordapp-contracts-states/src/main/kotlin/com/template/StartCampaign.kt:35 | an accepted creation transaction was built by the fundraiser |
| `AutoOfferFlow.NewCampaignStarts` | cordapp-contracts-states/src/main/kotlin/com/template/Campaign.kt:90-99 | a campaign with default `raised` and participants, started by its fundraiser, is accepted exactly when target > 0, the deadline is after `now`, and name and category are non-empty |
| `AutoOfferFlow.AllIdentities` | cordapp-contracts-states/src/main/kotlin/com/template/StartCampaign.kt:53 | an identity is listed exactly when some node of the network map has it |
| `AutoOfferFlow.ParticipantsOf` | cordapp-contracts-states/src/main/kotlin/com/template/StartCampaign.kt:57 | a party is listed exactly when it is a participant of one of the states |
| `AutoOfferFlow.WellKnownParticipants` | cordapp-contracts-states/src/main/kotlin/com/template/StartCampaign.kt:58 | resolution fails exactly when some participant is unknown to the identity service; otherwise the result holds exactly the participants' well-known identities |
| `AutoOfferFlow.Excluding` | cordapp-contracts-states/src/main/kotlin/com/template/StartCampaign.kt:59-61 | filtering keeps each party not excluded as often as it occurs, and drops every excluded one |
| `AutoOfferFlow.RecipientsCount` | cordapp-contracts-states/src/main/kotlin/com/template/StartCampaign.kt:59-61 | a party is a recipient as often as it is in the network map, unless it is a notary or a participant, in which case it is not a recipient |
| `AutoOfferFlow.RecipientsExcluded` | cordapp-contracts-states/src/main/kotlin/com/template/StartCampaign.kt:58-61 | a party is a recipient exactly when it is in the network map, is not a notary and is not a participant |
| `AutoOfferFlow.CallerNotExcluded` | cordapp-contracts-states/src/main/kotlin/com/template/StartCampaign.kt:54-61 | a caller in the network map that is neither a notary nor a participant is among the recipients |
| `AutoOfferFlow.OpenSessions` | cordapp-contracts-states/src/main/kotlin/com/template/StartCampaign.kt:66 | one session per recipient, in order, with nothing sent yet |
| `AutoOfferFlow.SendOnEach` | cordapp-contracts-states/src/main/kotlin/com/template/StartCampaign.kt:69 | the transaction is appended to what every session has sent; the counterparties are unchanged |
| `AutoOfferFlow.BroadcastTransaction` | cordapp-contracts-states/src/main/kotlin/com/template/StartCampaign.kt:51-70 | the broadcast yields exactly `Broadcast`: one session per recipient carrying the transaction once, or the resolution failure |
| `AutoOfferFlow.BroadcastReachesObserversOnly` | cordapp-contracts-states/src/main/kotlin/com/template/StartCampaign.kt:53-69 | every session carries exactly the transaction, once, to a network-map identity that is not a notary and not a resolved participant |
| `AutoOfferFlow.BroadcastReachesEveryObserver` | cordapp-contracts-states/src/main/kotlin/com/template/StartCampaign.kt:53-69 | every network-map identity that is neither a notary nor a resolved participant has a session |
| `AutoOfferFlow.BroadcastFailsOnUnknownParticipant` | cordapp-contracts-states/src/main/kotlin/com/template/StartCampaign.kt:57-58 | the broadcast fails exactly when a participant of an input or output cannot be resolved |
| `Scenarios.CreateThenDonateHundred` | cordapp-contracts-states/src/main/kotlin/com/template/MakeDonation.kt:98-119 | a 1000 USD campaign is created; a 100 USD donation then yields raised = 100 USD with the other fields unchanged and a 100 USD donation, and both contracts accept |
| `Scenarios.DonateZeroRejected` | cordapp-contracts-states/src/main/kotlin/com/template/MakeDonation.kt:49 | a 0 USD donation is refused with "Donation amount cannot be zero amount" |
| `Scenarios.DonateAtDeadlineRejected` | cordapp-contracts-states/src/main/kotlin/com/template/Campaign.kt:66-67 | a donation whose midpoint is the deadline is refused with "The donation cannot be accepted after the campaign deadline" |

## Left out

- Signing and the agreement protocol are not modelled. They are foreign,
  networked and concurrent:
  - `signInitialTransaction`, `IdentitySyncFlow`, `CollectSignaturesFlow` and
    `FinalityFlow`;
  - the donor's final `sendAndReceive`;
  - the fundraiser's `Responder`, which signs, waits for the ledger commit and
    broadcasts when asked;
  - `RecordTransactionAsObserver`.

  The model stops at the built transaction, and at the recipient sessions of a
  broadcast.
- Notary choice (`notaryIdentities.first()`) and the failure when there is no
  notary are not modelled. Double-spend prevention is delegated to the notary.
- Cryptography is not modelled: keys are opaque values. The fresh anonymous
  donor key is an input.
- Time windows are not modelled beyond their midpoint, the only part the rules
  read. Their bounds and the 30-second tolerance are left out.
- Amounts are not modelled with `displayTokenSize`. It follows from the
  currency wherever these files build amounts. Token-mismatch and
  negative-amount messages leave out the values that the library puts in them.
- The declaration of the `Donation` state is not part of this model. Its
  fields follow the constructor call at `MakeDonation.kt:103`. Its default
  participants and id are inputs of the assembly step.
- `DonationContract.Verify`: the "Command not found" branch is unreachable.
  `Create` is the only donation command declared, so the model has no other.
- `Verification.Verifies` requires both contracts to accept. It does not say
  which contract's failure the ledger would report first.
- The `println` debugging output is not modelled.
- The commented-out scheduled end of a campaign is not modelled.
- The REST controller and the RPC connection with its retry loop are not
  modelled.

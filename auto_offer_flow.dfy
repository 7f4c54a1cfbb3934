/** Campaign creation and the broadcast of a finished transaction to every
  * network identity that is neither a notary nor a participant. The network
  * map, the notary set and the identity service's resolution of
  * participants are inputs. */
module AutoOfferFlow {
  import opened Ledger
  import CampaignContract

  // ------------------------------------------------------------ creation

  /** The creation transaction: nothing consumed, the new campaign
    * produced, a `Start` command signed by the caller's key. */
  function StartTransaction(newCampaign: Campaign, ourKey: Key): LedgerTx
  {
    LedgerTx([], [CampaignState(newCampaign)], [Command(CampaignCommandData(Start), [ourKey])], None)
  }

  /** `StartCampaign.call`, up to the signing step: the builder receives
    * the output and the command. */
  method BuildStartTransaction(newCampaign: Campaign, ourKey: Key) returns (tx: LedgerTx)
    ensures tx == StartTransaction(newCampaign, ourKey)
  {
    var startcommand := Command(CampaignCommandData(Start), [ourKey]);
    var utx := new TransactionBuilder();
    var items := [OutputItem(CampaignState(newCampaign)), CommandItem(startcommand)];
    ItemsOfCons(items[1], []);
    ItemsOfCons(items[0], items[1..]);
    assert [items[1]] + [] == items[1..] && [items[0]] + items[1..] == items;
    utx.WithItems(items);
    tx := utx.ToLedgerTransaction();
  }

  /** The creation rule accepts the creation transaction exactly when the
    * caller is the fundraiser and the campaign is well formed at `now`. */
  lemma StartTransactionVerdict(c: Campaign, ourKey: Key, now: Instant)
    ensures CampaignContract.Verify(StartTransaction(c, ourKey), now) == Ok(()) <==>
            ourKey == c.fundraiser.owningKey &&
            c.target.quantity > 0 && c.raised == Zero(c.target.token) &&
            now < c.deadline && c.name != "" && c.category != ""
  {
    var tx := StartTransaction(c, ourKey);
    assert tx.commands[1..] == [];
    assert CampaignContract.CampaignCommandsOf(tx.commands) == [(Start, [ourKey])];
    assert SignerSet([ourKey]) == {ourKey};
    CampaignContract.VerifyAcceptsExactly(tx, now);
  }

  /** Only the fundraiser can create a campaign: whoever runs the flow signs
    * `Start`, and the rule wants the fundraiser's key and no other. */
  lemma OnlyFundraiserCanStart(c: Campaign, ourKey: Key, now: Instant)
    requires CampaignContract.Verify(StartTransaction(c, ourKey), now) == Ok(())
    ensures ourKey == c.fundraiser.owningKey
  {
    StartTransactionVerdict(c, ourKey, now);
  }

  /** A campaign built with its defaults, started by its fundraiser, is
    * accepted exactly when its target is positive, its deadline lies
    * after `now`, and it has a name and a category. */
  lemma NewCampaignStarts(
    name: string, target: Amount, fundraiser: Party, recipient: Party,
    deadline: Instant, category: string, id: UniqueId, now: Instant)
    ensures
      var c := CampaignContract.NewCampaign(name, target, fundraiser, recipient, deadline, category, id);
      CampaignContract.Verify(StartTransaction(c, fundraiser.owningKey), now) == Ok(()) <==>
      target.quantity > 0 && now < deadline && name != "" && category != ""
  {
    var c := CampaignContract.NewCampaign(name, target, fundraiser, recipient, deadline, category, id);
    StartTransactionVerdict(c, fundraiser.owningKey, now);
  }

  // ----------------------------------------------------------- broadcast

  /** `allNodes.flatMap { it.legalIdentities }`. */
  function AllIdentities(nodes: seq<seq<Party>>): (r: seq<Party>)
    ensures forall p :: p in r <==> exists i :: 0 <= i < |nodes| && p in nodes[i]
  {
    if nodes == [] then [] else nodes[0] + AllIdentities(nodes[1..])
  }

  /** `states.flatMap { it.participants }`. */
  function ParticipantsOf(states: seq<State>): (r: seq<AbstractParty>)
    ensures forall p :: p in r <==> exists s :: s in states && p in s.Participants()
  {
    if states == [] then []
    else
      assert forall s :: s in states <==> s == states[0] || s in states[1..];
      states[0].Participants() + ParticipantsOf(states[1..])
  }

  /** The participants of the outputs and of the inputs, as a set. */
  function TxParticipants(tx: LedgerTx): set<AbstractParty>
  {
    set p | p in ParticipantsOf(tx.outputs) + ParticipantsOf(tx.inputs)
  }

  /** `groupAbstractPartyByWellKnownParty(...).keys`: each participant
    * resolved to its well-known identity; one the identity service cannot
    * resolve is an error. */
  function WellKnownParticipants(participants: set<AbstractParty>, identities: map<AbstractParty, Party>)
    : (r: Result<set<Party>>)
    ensures r.Ok? <==> participants <= identities.Keys
    ensures r.Ok? ==> forall p :: p in participants ==> identities[p] in r.value
    ensures r.Ok? ==> forall q :: q in r.value ==> exists p :: p in participants && identities[p] == q
  {
    if exists p :: p in participants && p !in identities then Err(IllegalArgument("Could not find Party"))
    else Ok(set p | p in participants :: identities[p])
  }

  /** The parties of `s` that are not in `excluded`, in order and with
    * their multiplicity (`filter`, and list minus a collection). */
  function Excluding(s: seq<Party>, excluded: set<Party>): (r: seq<Party>)
    ensures forall p :: multiset(r)[p] == if p in excluded then 0 else multiset(s)[p]
  {
    if s == [] then []
    else
      assert s == [s[0]] + s[1..];
      (if s[0] in excluded then [] else [s[0]]) + Excluding(s[1..], excluded)
  }

  /** Everyone, minus the notaries, minus the participants. */
  function Recipients(everyone: seq<Party>, notaries: set<Party>, participants: set<Party>): seq<Party>
  {
    Excluding(Excluding(everyone, notaries), participants)
  }

  /** A recipient receives the transaction as often as it appears in the
    * network map, unless it is a notary or a participant, in which case it
    * receives nothing. */
  lemma RecipientsCount(everyone: seq<Party>, notaries: set<Party>, participants: set<Party>, p: Party)
    ensures multiset(Recipients(everyone, notaries, participants))[p] ==
            if p in notaries || p in participants then 0 else multiset(everyone)[p]
  {
  }

  /** Recipients are drawn from the network map, and none is a notary or a
    * participant. */
  lemma RecipientsExcluded(everyone: seq<Party>, notaries: set<Party>, participants: set<Party>, p: Party)
    ensures p in Recipients(everyone, notaries, participants) <==>
            p in everyone && p !in notaries && p !in participants
  {
    RecipientsCount(everyone, notaries, participants, p);
  }

  /** The caller is not removed as such: a caller listed in the network map
    * that is neither a notary nor a participant is sent its own
    * transaction. */
  lemma CallerNotExcluded(everyone: seq<Party>, notaries: set<Party>, participants: set<Party>, me: Party)
    requires me in everyone && me !in notaries && me !in participants
    ensures me in Recipients(everyone, notaries, participants)
  {
    RecipientsExcluded(everyone, notaries, participants, me);
  }

  /** A flow session to one counterparty and what has been sent on it. */
  datatype Session = Session(counterparty: Party, sent: seq<LedgerTx>)

  /** The broadcast's effect: one session per recipient, in order, each
    * carrying the transaction once; an unresolvable participant aborts it. */
  function Broadcast(stx: LedgerTx, nodes: seq<seq<Party>>, notaries: set<Party>,
                     identities: map<AbstractParty, Party>): Result<seq<Session>>
  {
    var allParticipants :- WellKnownParticipants(TxParticipants(stx), identities);
    var recipients := Recipients(AllIdentities(nodes), notaries, allParticipants);
    Ok(seq(|recipients|, i requires 0 <= i < |recipients| => Session(recipients[i], [stx])))
  }

  /** `recipients.map { initiateFlow(it) }`: one fresh session per
    * recipient, in order, nothing sent yet. */
  method OpenSessions(recipients: seq<Party>) returns (sessions: seq<Session>)
    ensures |sessions| == |recipients|
    ensures forall j :: 0 <= j < |sessions| ==> sessions[j] == Session(recipients[j], [])
  {
    sessions := [];
    for i := 0 to |recipients|
      invariant |sessions| == i
      invariant forall j :: 0 <= j < i ==> sessions[j] == Session(recipients[j], [])
    {
      sessions := sessions + [Session(recipients[i], [])];
    }
  }

  /** `sessions.forEach { subFlow(SendTransactionFlow(it, stx)) }`: the
    * transaction is appended to what each session has sent, and the
    * sessions' counterparties are untouched. */
  method SendOnEach(sessions: seq<Session>, stx: LedgerTx) returns (after: seq<Session>)
    ensures |after| == |sessions|
    ensures forall j :: 0 <= j < |after| ==>
              after[j] == Session(sessions[j].counterparty, sessions[j].sent + [stx])
  {
    after := sessions;
    for i := 0 to |sessions|
      invariant |after| == |sessions|
      invariant forall j :: 0 <= j < i ==> after[j] == Session(sessions[j].counterparty, sessions[j].sent + [stx])
      invariant forall j :: i <= j < |sessions| ==> after[j] == sessions[j]
    {
      after := after[i := Session(after[i].counterparty, after[i].sent + [stx])];
    }
  }

  /** `BroadcastTransaction.call`: resolve the participants, pick the
    * recipients, open one session to each, then send the transaction on
    * each session. */
  method BroadcastTransaction(stx: LedgerTx, nodes: seq<seq<Party>>, notaries: set<Party>,
                              identities: map<AbstractParty, Party>)
    returns (r: Result<seq<Session>>)
    ensures r == Broadcast(stx, nodes, notaries, identities)
  {
    var everyone := AllIdentities(nodes);
    var participants := TxParticipants(stx);
    var allParticipants :- WellKnownParticipants(participants, identities);
    var recipients := Recipients(everyone, notaries, allParticipants);
    var sessions := OpenSessions(recipients);
    sessions := SendOnEach(sessions, stx);
    ghost var expected := seq(|recipients|, i requires 0 <= i < |recipients| => Session(recipients[i], [stx]));
    assert forall j :: 0 <= j < |sessions| ==> sessions[j] == expected[j];
    assert sessions == expected;
    assert Broadcast(stx, nodes, notaries, identities) == Ok(expected);
    r := Ok(sessions);
  }

  /** What a successful broadcast does: the same transaction goes, once,
    * to each identity of the network map that is neither a notary nor
    * one of the transaction's resolved participants, and to no one else. */
  lemma BroadcastReachesObserversOnly(
    stx: LedgerTx, nodes: seq<seq<Party>>, notaries: set<Party>, identities: map<AbstractParty, Party>,
    sessions: seq<Session>)
    requires Broadcast(stx, nodes, notaries, identities) == Ok(sessions)
    ensures forall s :: s in sessions ==> s.sent == [stx]
    ensures forall s :: s in sessions ==>
              s.counterparty !in notaries &&
              (exists i :: 0 <= i < |nodes| && s.counterparty in nodes[i]) &&
              (forall p :: p in TxParticipants(stx) ==> s.counterparty != identities[p])
  {
    var allParticipants := WellKnownParticipants(TxParticipants(stx), identities).value;
    var everyone := AllIdentities(nodes);
    var recipients := Recipients(everyone, notaries, allParticipants);
    forall s | s in sessions
      ensures s.counterparty !in notaries && s.counterparty in everyone && s.counterparty !in allParticipants
    {
      var i :| 0 <= i < |sessions| && sessions[i] == s;
      assert s.counterparty == recipients[i];
      RecipientsExcluded(everyone, notaries, allParticipants, s.counterparty);
    }
  }

  /** And the converse: every identity of the network map that is neither a
    * notary nor a resolved participant has a session. */
  lemma BroadcastReachesEveryObserver(
    stx: LedgerTx, nodes: seq<seq<Party>>, notaries: set<Party>, identities: map<AbstractParty, Party>,
    sessions: seq<Session>, q: Party, i: nat)
    requires Broadcast(stx, nodes, notaries, identities) == Ok(sessions)
    requires i < |nodes| && q in nodes[i] && q !in notaries
    requires forall p :: p in TxParticipants(stx) ==> q != identities[p]
    ensures exists s :: s in sessions && s.counterparty == q
  {
    var allParticipants := WellKnownParticipants(TxParticipants(stx), identities).value;
    var everyone := AllIdentities(nodes);
    var recipients := Recipients(everyone, notaries, allParticipants);
    assert q in everyone;
    assert q !in allParticipants;
    RecipientsExcluded(everyone, notaries, allParticipants, q);
    var k :| 0 <= k < |recipients| && recipients[k] == q;
    assert sessions[k].counterparty == q;
  }

  /** Broadcasting fails exactly when a participant cannot be resolved to a
    * well-known identity. */
  lemma BroadcastFailsOnUnknownParticipant(
    stx: LedgerTx, nodes: seq<seq<Party>>, notaries: set<Party>, identities: map<AbstractParty, Party>)
    ensures Broadcast(stx, nodes, notaries, identities).Err? <==>
            exists s, p :: s in stx.inputs + stx.outputs && p in s.Participants() && p !in identities
  {
    var ps := ParticipantsOf(stx.outputs) + ParticipantsOf(stx.inputs);
    forall p ensures p in TxParticipants(stx) <==>
                     exists s :: s in stx.inputs + stx.outputs && p in s.Participants()
    {
      assert p in TxParticipants(stx) <==> p in ps;
    }
  }
}

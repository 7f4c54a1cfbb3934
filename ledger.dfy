/** The ledger vocabulary the contracts and flows are written against:
  * amounts, keys and parties, linear ids, the two state types, commands,
  * resolved transactions, and the mutable transaction builder. */
module Ledger {

  /** `Long.MAX_VALUE`: amount quantities are 64-bit signed integers. */
  const LongMax: int := 0x7fff_ffff_ffff_ffff

  /** An amount's quantity: an amount refuses a negative quantity, and the
    * quantity is a `Long`. */
  type Quantity = q: int | 0 <= q <= LongMax

  /** A point on the ledger's time line (`java.time.Instant`); only compared. */
  type Instant = int

  datatype Option<+T> = None | Some(value: T)

  /** Why a contract or a flow step refused. `Requirement` is a failed
    * `"..." using (...)` clause of a `requireThat` block; the other
    * variants are the exceptions thrown by the library calls on the way. */
  datatype Rejection =
    | Requirement(message: string)
    | IllegalArgument(message: string)
    | IllegalState(message: string)
    | NoSuchElement(message: string)
    | ClassCast
    | Arithmetic(message: string)

  datatype Result<+T> = Ok(value: T) | Err(reason: Rejection) {
    predicate IsFailure() { Err? }

    function PropagateFailure<U>(): Result<U>
      requires Err?
    {
      Err(reason)
    }

    function Extract(): T
      requires Ok?
    {
      value
    }
  }

  /** The outcome of a contract's `verify`: accepted, or the first failure. */
  type Verdict = Result<()>

  /** A verdict that is not a refusal is the one acceptance there is. */
  lemma AcceptedVerdict(v: Verdict)
    ensures v.Ok? <==> v == Ok(())
  {
    if v.Ok? {
      match v.value
      case () =>
    }
  }

  // ---------------------------------------------------------------- amounts

  datatype Currency = Currency(code: string)

  datatype Amount = Amount(quantity: Quantity, token: Currency)

  /** `Amount(0, token)`. */
  function Zero(token: Currency): Amount
  {
    Amount(0, token)
  }

  /** `a + b`: the tokens must agree, then the quantities are added with
    * overflow detection (`Math.addExact`). */
  function Plus(a: Amount, b: Amount): (r: Result<Amount>)
    ensures r.Ok? <==> a.token == b.token && a.quantity + b.quantity <= LongMax
    ensures r.Ok? ==> r.value.token == a.token && r.value.quantity == a.quantity + b.quantity
  {
    if a.token != b.token then Err(IllegalArgument("Token mismatch"))
    else if a.quantity + b.quantity > LongMax then Err(Arithmetic("long overflow"))
    else Ok(Amount(a.quantity + b.quantity, a.token))
  }

  /** `a - b`: the tokens must agree, and the difference must not be
    * negative, since an amount refuses a negative quantity. */
  function Minus(a: Amount, b: Amount): (r: Result<Amount>)
    ensures r.Ok? <==> a.token == b.token && b.quantity <= a.quantity
    ensures r.Ok? ==> r.value.token == a.token && r.value.quantity == a.quantity - b.quantity
  {
    if a.token != b.token then Err(IllegalArgument("Token mismatch"))
    else if a.quantity < b.quantity then Err(IllegalArgument("Negative amounts are not allowed"))
    else Ok(Amount(a.quantity - b.quantity, a.token))
  }

  /** Subtraction undoes addition: the campaign rule recovers the donated
    * amount from the two `raised` values the assembly step produced. */
  lemma MinusInvertsPlus(a: Amount, b: Amount, c: Amount)
    requires Plus(a, b) == Ok(c)
    ensures Minus(c, a) == Ok(b)
  {
  }

  /** `Minus` succeeds exactly when the first amount is the second plus
    * the result. */
  lemma MinusIsPartialInverse(a: Amount, b: Amount, d: Amount)
    ensures Minus(a, b) == Ok(d) <==> Plus(b, d) == Ok(a)
  {
  }

  // ------------------------------------------------------ keys and parties

  /** A public key, compared only for equality. */
  datatype Key = Key(id: nat)

  /** A well-known identity. Identities are equal exactly when their owning
    * keys are, so the legal name is not part of the value. */
  datatype Party = Party(owningKey: Key)

  /** Any identity, possibly an anonymous one known only by its key. */
  datatype AbstractParty = AbstractParty(owningKey: Key)

  /** A well-known party used where any party is expected. */
  function AsAbstract(p: Party): AbstractParty
  {
    AbstractParty(p.owningKey)
  }

  /** `UniqueIdentifier`: the stable id of a linear state. */
  datatype UniqueId = UniqueId(uuid: nat)

  // ----------------------------------------------------------------- states

  /** A campaign version (`data class Campaign`). */
  datatype Campaign = Campaign(
    name: string,
    target: Amount,
    raised: Amount,
    fundraiser: Party,
    recipient: Party,
    deadline: Instant,
    category: string,
    participants: seq<AbstractParty>,
    linearId: UniqueId)

  /** A donation, as built by `Donation(campaignReference, fundraiser, donor,
    * amount)`; its participants and id are given by the donation class. */
  datatype Donation = Donation(
    campaignReference: UniqueId,
    fundraiser: Party,
    donor: AbstractParty,
    amount: Amount,
    participants: seq<AbstractParty>,
    linearId: UniqueId)

  datatype State = CampaignState(campaign: Campaign) | DonationState(donation: Donation)
  {
    function Participants(): seq<AbstractParty>
    {
      match this
      case CampaignState(c) => c.participants
      case DonationState(d) => d.participants
    }
  }

  /** `inputsOfType<Campaign>()` / `outputsOfType<Campaign>()`, in order. */
  function CampaignsOf(states: seq<State>): seq<Campaign>
  {
    if states == [] then []
    else (if states[0].CampaignState? then [states[0].campaign] else []) + CampaignsOf(states[1..])
  }

  /** `inputsOfType<Donation>()` / `outputsOfType<Donation>()`, in order. */
  function DonationsOf(states: seq<State>): seq<Donation>
  {
    if states == [] then []
    else (if states[0].DonationState? then [states[0].donation] else []) + DonationsOf(states[1..])
  }

  /** Picking states by type distributes over concatenation. */
  lemma {:induction false} StatesOfAppend(a: seq<State>, b: seq<State>)
    ensures CampaignsOf(a + b) == CampaignsOf(a) + CampaignsOf(b)
    ensures DonationsOf(a + b) == DonationsOf(a) + DonationsOf(b)
  {
    if a != [] {
      assert (a + b)[1..] == a[1..] + b;
      StatesOfAppend(a[1..], b);
    } else {
      assert a + b == b;
    }
  }

  /** `List.single()`. */
  function Single<T>(s: seq<T>): (r: Result<T>)
    ensures r.Ok? <==> |s| == 1
    ensures r.Ok? ==> r.value == s[0]
  {
    if |s| == 0 then Err(NoSuchElement("List is empty."))
    else if |s| > 1 then Err(IllegalArgument("List has more than one element."))
    else Ok(s[0])
  }

  // ------------------------------------------------------------- commands

  datatype CampaignCommand = Start | End | AcceptDonation

  datatype DonationCommand = Create

  datatype CommandData =
    | CampaignCommandData(campaignCommand: CampaignCommand)
    | DonationCommandData(donationCommand: DonationCommand)

  /** A command with the keys that must sign for it. */
  datatype Command = Command(value: CommandData, signers: seq<Key>)

  /** `signers.toSet()`. */
  function SignerSet(signers: seq<Key>): set<Key>
  {
    set k | k in signers
  }

  // ---------------------------------------------------------- transactions

  /** A transaction's validity window, seen through the one thing the
    * contracts read from it: its midpoint, which exists only for a window
    * bounded on both sides. */
  datatype TimeWindow = TimeWindow(midpoint: Option<Instant>)

  /** A transaction with its inputs resolved to the states they consume. */
  datatype LedgerTx = LedgerTx(
    inputs: seq<State>,
    outputs: seq<State>,
    commands: seq<Command>,
    timeWindow: Option<TimeWindow>)

  /** An argument of `TransactionBuilder.withItems`. */
  datatype Item =
    | OutputItem(output: State)
    | InputItem(input: State)
    | CommandItem(command: Command)

  function InputsOf(items: seq<Item>): seq<State>
  {
    if items == [] then []
    else
      var last := items[|items| - 1];
      InputsOf(items[..|items| - 1]) + (if last.InputItem? then [last.input] else [])
  }

  function OutputsOf(items: seq<Item>): seq<State>
  {
    if items == [] then []
    else
      var last := items[|items| - 1];
      OutputsOf(items[..|items| - 1]) + (if last.OutputItem? then [last.output] else [])
  }

  function CommandsOf(items: seq<Item>): seq<Command>
  {
    if items == [] then []
    else
      var last := items[|items| - 1];
      CommandsOf(items[..|items| - 1]) + (if last.CommandItem? then [last.command] else [])
  }

  /** Reading a list of items from the front: the first item goes to its
    * list ahead of everything after it. */
  lemma {:induction false} ItemsOfCons(x: Item, items: seq<Item>)
    ensures InputsOf([x] + items) == (if x.InputItem? then [x.input] else []) + InputsOf(items)
    ensures OutputsOf([x] + items) == (if x.OutputItem? then [x.output] else []) + OutputsOf(items)
    ensures CommandsOf([x] + items) == (if x.CommandItem? then [x.command] else []) + CommandsOf(items)
  {
    if items == [] {
      assert ([x] + items)[..0] == [];
    } else {
      var n := |items|;
      assert ([x] + items)[..n] == [x] + items[..n - 1];
      ItemsOfCons(x, items[..n - 1]);
    }
  }

  /** The transaction under construction. Items are appended in the order
    * they are given, each to the list of its kind. */
  class TransactionBuilder {
    var inputs: seq<State>
    var outputs: seq<State>
    var commands: seq<Command>
    var timeWindow: Option<TimeWindow>

    constructor ()
      ensures inputs == [] && outputs == [] && commands == [] && timeWindow == None
    {
      inputs, outputs, commands, timeWindow := [], [], [], None;
    }

    /** `withItems(...)`: each item is added to the inputs, the outputs or
      * the commands, according to its kind. */
    method WithItems(items: seq<Item>)
      modifies this
      ensures inputs == old(inputs) + InputsOf(items)
      ensures outputs == old(outputs) + OutputsOf(items)
      ensures commands == old(commands) + CommandsOf(items)
      ensures timeWindow == old(timeWindow)
    {
      var i := 0;
      while i < |items|
        invariant 0 <= i <= |items|
        invariant inputs == old(inputs) + InputsOf(items[..i])
        invariant outputs == old(outputs) + OutputsOf(items[..i])
        invariant commands == old(commands) + CommandsOf(items[..i])
        invariant timeWindow == old(timeWindow)
      {
        assert items[..i + 1][..i] == items[..i];
        match items[i] {
          case OutputItem(s) => outputs := outputs + [s];
          case InputItem(s) => inputs := inputs + [s];
          case CommandItem(c) => commands := commands + [c];
        }
        i := i + 1;
      }
      assert items[..i] == items;
    }

    /** `setTimeWindow(time, tolerance)`: a window centred on `time`. */
    method SetTimeWindow(time: Instant)
      modifies this
      ensures timeWindow == Some(TimeWindow(Some(time)))
      ensures inputs == old(inputs) && outputs == old(outputs) && commands == old(commands)
    {
      timeWindow := Some(TimeWindow(Some(time)));
    }

    /** The transaction the builder currently describes. */
    function ToLedgerTransaction(): (tx: LedgerTx)
      reads this
    {
      LedgerTx(inputs, outputs, commands, timeWindow)
    }
  }
}

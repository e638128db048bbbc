/** Accounts, assets, events and one circle's slice of the pallet's storage. */
module Storage {
  import opened Prelude

  type RoscaId = u32

  /** `Pot(id)` is the keyless account derived from a circle's id: derivation is injective and
      never yields an account somebody holds a key for. */
  datatype Account = Member(key: nat) | Pot(circle: RoscaId)

  /** The byte order of account ids, used by `sort`. */
  predicate Below(a: Account, b: Account) {
    if a.Member? then b.Member? ==> a.key < b.key else b.Pot? && a.circle < b.circle
  }

  datatype Asset = USDT | USDC

  datatype Config = Config(maxParticipants: u32, maxInvited: u32)

  datatype Details = Details(
    randomOrder: bool,
    numberOfParticipants: u32,
    threshold: u32,
    amount: u32,
    asset: Asset,
    frequency: pos64,
    startBy: u64)

  datatype RoundInfo = RoundInfo(number: nat, cutoff: u64, expected: seq<Account>, recipient: Account)

  /** The pallet's events, without the circle id that each of them carries. */
  datatype Event =
    | RoscaCreated(details: Details, eligible: seq<Account>, creator: Account)
    | JoinedRosca(joiner: Account)
    | LeftRosca(leaver: Account)
    | RoscaStarted(startedBy: Account, rounds: seq<RoundInfo>, firstClaimant: Account, firstCutoff: u64)
    | ContributionMade(contributor: Account, recipient: Account, paid: nat)
    | DepositDeducted(debtor: Account, creditor: Account, deducted: nat, sufficient: bool)
    | ParticipantDefaulted(unpaidRecipient: Account, defaulter: Account)
    | NewRoundStarted(newRecipient: Account, newCutoff: u64)
    | RoscaComplete
    | SecurityDepositContribution(depositor: Account, added: nat)
    | SecurityDepositClaimed(claimer: Account, claimed: nat)

  /** Everything the pallet stores under one circle id, and that circle's part of the event log. */
  datatype Circle = Circle(
    pending: Option<Details>,
    active: Option<Details>,
    completed: bool,
    participants: map<Account, nat>,
    invited: set<Account>,
    participantCount: Option<u32>,
    pendingOrder: Option<seq<Option<Account>>>,
    order: Option<seq<Account>>,
    claimant: Option<Account>,
    nextPayBy: Option<u64>,
    finalPayBy: Option<u64>,
    contributors: set<Account>,
    contributionCount: u32,
    deposits: map<Account, u32>,
    defaults: map<Account, u32>,
    log: seq<Event>)
  {
    function Deposit(p: Account): u32 {
      Get(deposits, p, 0)
    }

    function Defaults(p: Account): u32 {
      Get(defaults, p, 0)
    }

    function Members(): set<Account> {
      participants.Keys
    }

    function Logged(e: Event): Circle {
      this.(log := log + [e])
    }
  }

  const EMPTY := Circle(None, None, false, map[], {}, None, None, None, None, None, None, {}, 0, map[], map[], [])

  // ---------- the assets ledger ----------

  datatype Ledger = Ledger(usdt: map<Account, nat>, usdc: map<Account, nat>) {
    function Of(a: Asset): map<Account, nat> {
      if a.USDT? then usdt else usdc
    }

    function Balance(a: Asset, x: Account): nat {
      Get(Of(a), x, 0)
    }

    function Put(a: Asset, x: Account, v: nat): Ledger {
      if a.USDT? then this.(usdt := usdt[x := v]) else this.(usdc := usdc[x := v])
    }

    ghost function Supply(a: Asset): nat {
      Sum(Of(a))
    }
  }

  /** An exact, all-or-nothing transfer. Paying oneself needs the funds and changes no balance. */
  function Transfer(l: Ledger, a: Asset, from: Account, to: Account, amount: nat): Result<Ledger> {
    if l.Balance(a, from) < amount then Err(FundsUnavailable)
    else
      var l1 := l.Put(a, from, l.Balance(a, from) - amount);
      Ok(l1.Put(a, to, l1.Balance(a, to) + amount))
  }

  lemma PutEffect(l: Ledger, a: Asset, x: Account, v: nat)
    ensures forall b :: b != a ==> l.Put(a, x, v).Of(b) == l.Of(b)
    ensures forall y :: l.Put(a, x, v).Balance(a, y) == if y == x then v else l.Balance(a, y)
  {
  }

  /** `amount` of asset `a` went from `from` to `to`; nothing else moved. */
  ghost predicate Moved(l: Ledger, l': Ledger, a: Asset, from: Account, to: Account, amount: nat) {
    && (forall b :: b != a ==> l'.Of(b) == l.Of(b))
    && (forall x :: x != from && x != to ==> l'.Balance(a, x) == l.Balance(a, x))
    && (from == to ==> l'.Balance(a, to) == l.Balance(a, to))
    && (from != to ==> l'.Balance(a, to) == l.Balance(a, to) + amount && l'.Balance(a, from) == l.Balance(a, from) - amount)
  }

  /** A transfer succeeds exactly when the payer has the funds, and then moves exactly the amount. */
  lemma TransferEffect(l: Ledger, a: Asset, from: Account, to: Account, amount: nat)
    ensures Transfer(l, a, from, to, amount).Ok? <==> l.Balance(a, from) >= amount
    ensures Transfer(l, a, from, to, amount).Ok? ==> Moved(l, Transfer(l, a, from, to, amount).value, a, from, to, amount)
  {
    hide Ledger.Put, Ledger.Of, Ledger.Balance;
    if l.Balance(a, from) >= amount {
      var l1 := l.Put(a, from, l.Balance(a, from) - amount);
      PutEffect(l, a, from, l.Balance(a, from) - amount);
      PutEffect(l1, a, to, l1.Balance(a, to) + amount);
    }
  }

  /** A transfer creates and destroys nothing. */
  lemma TransferKeepsSupply(l: Ledger, a: Asset, from: Account, to: Account, amount: nat)
    requires l.Balance(a, from) >= amount
    ensures forall b :: Transfer(l, a, from, to, amount).value.Supply(b) == l.Supply(b)
  {
    hide Sum;
    var l1 := l.Put(a, from, l.Balance(a, from) - amount);
    SumUpdate(l.Of(a), from, l.Balance(a, from) - amount);
    SumUpdate(l1.Of(a), to, l1.Balance(a, to) + amount);
  }

  // ---------- bounded removal from a storage map ----------

  function Least(s: set<Account>): (x: Account)
    requires s != {}
    ensures x in s
  {
    LeastExists(s);
    var x :| x in s && forall y :: y in s ==> y == x || Below(x, y);
    x
  }

  lemma {:induction false} LeastExists(s: set<Account>)
    requires s != {}
    ensures exists x :: x in s && forall y :: y in s ==> y == x || Below(x, y)
  {
    var x :| x in s;
    if s != {x} {
      LeastExists(s - {x});
      var z :| z in s - {x} && forall y :: y in s - {x} ==> y == z || Below(z, y);
      var least := if Below(x, z) then x else z;
      forall y | y in s
        ensures y == least || Below(least, y)
      {
        assert y == x || y in s - {x};
      }
    }
  }

  /** `clear_prefix(limit)`: at most `limit` entries go, the rest stay behind. Storage visits entries in the order of
      their hashed keys, which the order of the keys stands for here: nothing depends on which entries go. */
  function ClearPrefix(s: set<Account>, limit: nat): (r: set<Account>)
    ensures r <= s
    ensures |r| == |s| - Min(limit, |s|)
    decreases limit
  {
    if limit == 0 || s == {} then s
    else
      ClearPrefix(s - {Least(s)}, limit - 1)
  }
}

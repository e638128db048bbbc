/** The events as a statement of account: every amount that moves is announced, and every announced amount moves. */
module Statements {
  import opened Prelude
  import opened Storage
  import opened Rules
  import opened Runs

  function To(x: Account, y: Account, amount: nat): nat {
    if x == y then amount else 0
  }

  /** What an event of circle `id` says about the balance of account x. */
  function Entry(e: Event, id: RoscaId, x: Account): int {
    match e
    case ContributionMade(p, r, amount) => To(x, r, amount) - To(x, p, amount)
    case DepositDeducted(_, r, amount, _) => To(x, r, amount) - To(x, Pot(id), amount)
    case SecurityDepositContribution(p, amount) => To(x, Pot(id), amount) - To(x, p, amount)
    case SecurityDepositClaimed(p, amount) => To(x, p, amount) - To(x, Pot(id), amount)
    case _ => 0
  }

  ghost function Net(log: seq<Event>, id: RoscaId, x: Account): int {
    if log == [] then 0 else Net(log[..|log| - 1], id, x) + Entry(log[|log| - 1], id, x)
  }

  lemma NetPush(log: seq<Event>, e: Event, id: RoscaId)
    ensures forall x :: Net(log + [e], id, x) == Net(log, id, x) + Entry(e, id, x)
  {
    assert (log + [e])[..|log|] == log;
  }

  /** Between two states only asset `a` moved, and every account gained exactly what the new events say. */
  ghost predicate Booked(id: RoscaId, a: Asset, log: seq<Event>, l: Ledger, log': seq<Event>, l': Ledger) {
    && (forall b :: b != a ==> l'.Of(b) == l.Of(b))
    && (forall x :: l'.Balance(a, x) - l.Balance(a, x) == Net(log', id, x) - Net(log, id, x))
  }

  lemma BookedTwice(id: RoscaId, a: Asset, v: View, v1: View, v2: View)
    requires Booked(id, a, v.c.log, v.l, v1.c.log, v1.l) && Booked(id, a, v1.c.log, v1.l, v2.c.log, v2.l)
    ensures Booked(id, a, v.c.log, v.l, v2.c.log, v2.l)
  {
    hide Net, Ledger.Balance, Ledger.Of;
  }

  lemma BookedSelf(id: RoscaId, a: Asset, v: View)
    ensures Booked(id, a, v.c.log, v.l, v.c.log, v.l)
  {
  }

  /** An event that announces no money leaves the ledger alone. */
  lemma BookedQuiet(id: RoscaId, a: Asset, log: seq<Event>, l: Ledger, e: Event)
    requires forall x :: Entry(e, id, x) == 0
    ensures Booked(id, a, log, l, log + [e], l)
  {
    hide Net, Entry;
    NetPush(log, e, id);
  }

  /** A transfer and the event that announces it. */
  lemma BookedTransfer(id: RoscaId, a: Asset, log: seq<Event>, l: Ledger, e: Event, from: Account, to: Account, amount: nat)
    requires Transfer(l, a, from, to, amount).Ok?
    requires forall x :: Entry(e, id, x) == To(x, to, amount) - To(x, from, amount)
    ensures Booked(id, a, log, l, log + [e], Transfer(l, a, from, to, amount).value)
  {
    hide Net, Entry, Transfer, Ledger.Balance, Ledger.Of;
    NetPush(log, e, id);
    TransferEffect(l, a, from, to, amount);
  }

  // ---------- closing rounds ----------

  lemma SettleOneBooked(id: RoscaId, d: Details, r: Account, v: View, p: Account)
    requires SettleOne(id, d, r, v, p).Ok?
    ensures var u := SettleOne(id, d, r, v, p).value; Booked(id, d.asset, v.c.log, v.l, u.c.log, u.l)
  {
    hide Booked, Transfer, Net;
    BookedSelf(id, d.asset, v);
    if p != r && p !in v.c.contributors {
      var held := v.c.Deposit(p);
      var u := SettleOne(id, d, r, v, p).value;
      if held >= d.amount {
        BookedTransfer(id, d.asset, v.c.log, v.l, DepositDeducted(p, r, d.amount, true), Pot(id), r, d.amount);
      } else if held == 0 {
        BookedQuiet(id, d.asset, v.c.log, v.l, ParticipantDefaulted(r, p));
      } else {
        var e := DepositDeducted(p, r, held, false);
        BookedTransfer(id, d.asset, v.c.log, v.l, e, Pot(id), r, held);
        BookedQuiet(id, d.asset, v.c.log + [e], u.l, ParticipantDefaulted(r, p));
        BookedTwice(id, d.asset, v, View(v.c.Logged(e), u.l), u);
      }
    }
  }

  lemma {:induction false} SettleBooked(id: RoscaId, d: Details, r: Account, v: View, ps: seq<Account>)
    requires Settle(id, d, r, v, ps).Ok?
    ensures var u := Settle(id, d, r, v, ps).value; Booked(id, d.asset, v.c.log, v.l, u.c.log, u.l)
  {
    hide Booked, SettleOne;
    if ps == [] {
      BookedSelf(id, d.asset, v);
    } else {
      var init := ps[..|ps| - 1];
      SettleBooked(id, d, r, v, init);
      var v1 := Settle(id, d, r, v, init).value;
      SettleOneBooked(id, d, r, v1, ps[|ps| - 1]);
      BookedTwice(id, d.asset, v, v1, Settle(id, d, r, v, ps).value);
    }
  }

  lemma CloseRoundBooked(id: RoscaId, v: View)
    requires CloseRound(id, v).Ok?
    ensures var u := CloseRound(id, v).value;
            v.c.active.Some? && u.c.active == v.c.active && Booked(id, v.c.active.value.asset, v.c.log, v.l, u.c.log, u.l)
  {
    hide Booked, Settle, ClearPrefix;
    var d := v.c.active.value;
    var v1, u := ProcessDefaulters(id, v).value, CloseRound(id, v).value;
    SettleBooked(id, d, v.c.claimant.value, v, v.c.order.value);
    BookedQuiet(id, d.asset, v1.c.log, v1.l, u.c.log[|v1.c.log|]);
    assert u.c.log == v1.c.log + [u.c.log[|v1.c.log|]];
    BookedTwice(id, d.asset, v, v1, u);
  }

  lemma CompleteBooked(id: RoscaId, a: Asset, v: View)
    ensures Booked(id, a, v.c.log, v.l, Complete(v.c).log, v.l)
  {
    hide Booked;
    BookedQuiet(id, a, v.c.log, v.l, RoscaComplete);
  }

  lemma {:induction false} CatchUpBooked(id: RoscaId, v: View, now: u64)
    requires v.c.active.Some? && CatchUp(id, v, now).Ok?
    ensures var u := CatchUp(id, v, now).value.v; Booked(id, v.c.active.value.asset, v.c.log, v.l, u.c.log, u.l)
    decreases if v.c.nextPayBy.Some? && v.c.nextPayBy.value <= now then now - v.c.nextPayBy.value + 1 else 0
  {
    hide Booked, ProcessDefaulters, AdvanceRound, CloseRound, Complete;
    var a := v.c.active.value.asset;
    if v.c.nextPayBy.value <= now {
      CloseRoundBooked(id, v);
      var v1 := CloseRound(id, v).value;
      if CheckAndComplete(v1.c).value.done {
        CompleteBooked(id, a, v1);
        BookedTwice(id, a, v, v1, View(Complete(v1.c), v1.l));
      } else {
        CatchUpBooked(id, v1, now);
        BookedTwice(id, a, v, v1, CatchUp(id, v1, now).value.v);
      }
    } else {
      BookedSelf(id, a, v);
    }
  }

  lemma {:induction false} EndLoopBooked(id: RoscaId, v: View, final: u64)
    requires v.c.active.Some? && EndLoop(id, v, final).Ok?
    ensures var u := EndLoop(id, v, final).value; Booked(id, v.c.active.value.asset, v.c.log, v.l, u.c.log, u.l)
    decreases if v.c.nextPayBy.Some? && v.c.nextPayBy.value <= final then final - v.c.nextPayBy.value + 1 else 0
  {
    hide Booked, ProcessDefaulters, AdvanceRound, CloseRound;
    var a := v.c.active.value.asset;
    if v.c.nextPayBy.Some? && v.c.nextPayBy.value <= final {
      CloseRoundBooked(id, v);
      var v1 := CloseRound(id, v).value;
      EndLoopBooked(id, v1, final);
      BookedTwice(id, a, v, v1, EndLoop(id, v1, final).value);
    } else {
      BookedSelf(id, a, v);
    }
  }

  // ---------- calls ----------

  lemma PayBooked(id: RoscaId, v: View, d: Details, final: u64, signer: Account)
    requires Pay(v, d, final, signer).Ok?
    ensures var u := Pay(v, d, final, signer).value; Booked(id, d.asset, v.c.log, v.l, u.c.log, u.l)
  {
    hide Booked, Transfer, ClearPrefix, Net;
    var x, u := v.c.claimant.value, Pay(v, d, final, signer).value;
    var e := ContributionMade(signer, x, d.amount);
    BookedTransfer(id, d.asset, v.c.log, v.l, e, signer, x, d.amount);
    var log := v.c.log + [e];
    if u.c.log != log {
      BookedQuiet(id, d.asset, log, u.l, u.c.log[|log|]);
      assert u.c.log == log + [u.c.log[|log|]];
      BookedTwice(id, d.asset, v, View(v.c.Logged(e), u.l), u);
    }
  }

  lemma ContributeBooked(id: RoscaId, v: View, now: u64, signer: Account)
    requires ContributeToRosca(id, v, now, signer).Ok?
    ensures var u := ContributeToRosca(id, v, now, signer).value;
            v.c.active.Some? && Booked(id, v.c.active.value.asset, v.c.log, v.l, u.c.log, u.l)
  {
    hide Booked, CatchUp, Pay;
    CatchUpBooked(id, v, now);
    var k := CatchUp(id, v, now).value;
    if !k.done {
      PayBooked(id, k.v, v.c.active.value, v.c.finalPayBy.value, signer);
      BookedTwice(id, v.c.active.value.asset, v, k.v, ContributeToRosca(id, v, now, signer).value);
    }
  }

  lemma ManualEndBooked(id: RoscaId, v: View, now: u64)
    requires ManuallyEnd(id, v, now).Ok?
    ensures var u := ManuallyEnd(id, v, now).value;
            v.c.active.Some? && Booked(id, v.c.active.value.asset, v.c.log, v.l, u.c.log, u.l)
  {
    hide Booked, EndLoop, Complete;
    var a := v.c.active.value.asset;
    EndLoopBooked(id, v, v.c.finalPayBy.value);
    var v1 := EndLoop(id, v, v.c.finalPayBy.value).value;
    CompleteBooked(id, a, v1);
    BookedTwice(id, a, v, v1, View(Complete(v1.c), v1.l));
  }

  lemma LeaveBooked(id: RoscaId, v: View, signer: Account)
    requires LeaveRosca(id, v, signer).Ok?
    ensures var u := LeaveRosca(id, v, signer).value;
            v.c.active.None? && v.c.pending.Some? && Booked(id, v.c.pending.value.asset, v.c.log, v.l, u.c.log, u.l)
  {
    hide Booked, Transfer, Net;
    var a, held, u := v.c.pending.value.asset, v.c.Deposit(signer), LeaveRosca(id, v, signer).value;
    if held == 0 {
      BookedQuiet(id, a, v.c.log, v.l, LeftRosca(signer));
    } else {
      var e := SecurityDepositClaimed(signer, held);
      BookedTransfer(id, a, v.c.log, v.l, e, Pot(id), signer, held);
      BookedQuiet(id, a, v.c.log + [e], u.l, LeftRosca(signer));
      BookedTwice(id, a, v, View(v.c.Logged(e), u.l), u);
    }
  }

  /** The asset in which a call pays. */
  function AssetOf(c: Circle, call: Call): Option<Asset> {
    if call.Claim? then Some(call.asset)
    else
      var d := c.active.Or(c.pending);
      if d.Some? then Some(d.value.asset) else None
  }

  /** Every accepted call, on any stored state: only one asset moves, and in it every account, the circle's own included,
      gains exactly what the new events of the circle say. */
  lemma CallBooked(cfg: Config, now: u64, v: View, signer: Account, call: Call)
    requires CallOn(cfg, now, v, signer, call).Ok?
    ensures AssetOf(v.c, call).Some?
    ensures var u := CallOn(cfg, now, v, signer, call).value;
            Booked(call.id, AssetOf(v.c, call).value, v.c.log, v.l, u.c.log, u.l)
  {
    hide Booked, ContributeToRosca, ManuallyEnd, LeaveRosca, Transfer, GenerateRounds, AddTimes, Net, Filled, Shuffle;
    var id := call.id;
    match call {
      case Join(_, _) => BookedQuiet(id, v.c.pending.value.asset, v.c.log, v.l, JoinedRosca(signer));
      case Leave(_) => LeaveBooked(id, v, signer);
      case Start(_, byte) =>
        var c' := StartRosca(cfg, v.c, now, signer, byte).value;
        BookedQuiet(id, v.c.pending.value.asset, v.c.log, v.l, c'.log[|v.c.log|]);
        assert c'.log == v.c.log + [c'.log[|v.c.log|]];
      case Contribute(_) => ContributeBooked(id, v, now, signer);
      case ManualEnd(_) => ManualEndBooked(id, v, now);
      case Claim(_, asset) =>
        var held := v.c.deposits[signer];
        BookedTransfer(id, asset, v.c.log, v.l, SecurityDepositClaimed(signer, held), Pot(id), signer, held);
      case Add(_, amount) =>
        var a := v.c.active.Or(v.c.pending).value.asset;
        BookedTransfer(id, a, v.c.log, v.l, SecurityDepositContribution(signer, amount), signer, Pot(id), amount);
    }
  }

  // ---------- every run ----------

  /** What a move says about the balance of x in asset a. */
  ghost function MoveEntry(w: World, m: Move, a: Asset, x: Account): int {
    if Step(w, m) == w then 0
    else if m.Outside? && m.asset == a then To(x, m.to, m.sum) - To(x, m.from, m.sum)
    else if m.Do? && AssetOf(w.At(m.call.id), m.call) == Some(a) then
      Net(Step(w, m).At(m.call.id).log, m.call.id, x) - Net(w.At(m.call.id).log, m.call.id, x)
    else 0
  }

  ghost function Statement(w: World, ms: seq<Move>, a: Asset, x: Account): int {
    if ms == [] then 0
    else Statement(w, ms[..|ms| - 1], a, x) + MoveEntry(Run(w, ms[..|ms| - 1]), ms[|ms| - 1], a, x)
  }

  lemma StepBooked(w: World, m: Move, a: Asset, x: Account)
    ensures Step(w, m).ledger.Balance(a, x) == w.ledger.Balance(a, x) + MoveEntry(w, m, a, x)
  {
    hide CallOn, CreateRosca, Transfer, Net, Ledger.Of;
    if Step(w, m) == w {
    } else if m.Do? {
      CallBooked(w.cfg, w.now, View(w.At(m.call.id), w.ledger), m.signer, m.call);
      var l, l' := w.ledger, Step(w, m).ledger;
      SameBalances(l, l');
    } else if m.Outside? {
      TransferEffect(w.ledger, m.asset, m.from, m.to, m.sum);
      SameBalances(w.ledger, Step(w, m).ledger);
    }
  }

  lemma SameBalances(l: Ledger, l': Ledger)
    ensures forall b, x :: l'.Of(b) == l.Of(b) ==> l'.Balance(b, x) == l.Balance(b, x)
  {
  }

  /** Over every run, whatever the ids, each account's balance in each asset is its opening balance plus what the events
      of the circles and the transfers from outside say. */
  lemma {:induction false} LedgerExplained(w: World, ms: seq<Move>, a: Asset, x: Account)
    ensures Run(w, ms).ledger.Balance(a, x) == w.ledger.Balance(a, x) + Statement(w, ms, a, x)
  {
    hide Step, MoveEntry, Ledger.Balance;
    if ms != [] {
      LedgerExplained(w, ms[..|ms| - 1], a, x);
      StepBooked(Run(w, ms[..|ms| - 1]), ms[|ms| - 1], a, x);
    }
  }
}

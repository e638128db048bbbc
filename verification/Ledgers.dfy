/** What a call can do to the ledger: supply is conserved, other circles' pots are left alone, and a pot's
    surplus over its recorded deposits moves only when somebody claims in another asset. */
module Ledgers {
  import opened Prelude
  import opened Storage
  import opened Rules
  import opened Journal
  import opened Schedule
  import opened Settlement
  import opened Rota
  import opened Accounts
  import opened Circles
  import opened Deadlines
  import opened Payments

  /** Supply is the same in every asset, and only the pot of circle `id` may have changed. */
  ghost predicate Kept(l: Ledger, l': Ledger, id: RoscaId) {
    && (forall a: Asset :: l'.Supply(a) == l.Supply(a))
    && (forall a: Asset, j: RoscaId :: j != id ==> l'.Balance(a, Pot(j)) == l.Balance(a, Pot(j)))
  }

  lemma KeptTwice(l: Ledger, l1: Ledger, l2: Ledger, id: RoscaId)
    requires Kept(l, l1, id) && Kept(l1, l2, id)
    ensures Kept(l, l2, id)
  {
    hide Ledger.Supply, Ledger.Balance;
  }

  lemma TransferKept(l: Ledger, a: Asset, from: Account, to: Account, amount: nat, id: RoscaId)
    requires Transfer(l, a, from, to, amount).Ok?
    requires (from.Member? || from == Pot(id)) && (to.Member? || to == Pot(id))
    ensures Kept(l, Transfer(l, a, from, to, amount).value, id)
  {
    TransferEffect(l, a, from, to, amount);
    TransferKeepsSupply(l, a, from, to, amount);
    hide Transfer, Ledger.Supply;
  }

  lemma {:induction false} SettleKept(id: RoscaId, d: Details, r: Account, v: View, ps: seq<Account>)
    requires r.Member? && Settle(id, d, r, v, ps).Ok?
    ensures Kept(v.l, Settle(id, d, r, v, ps).value.l, id)
  {
    hide Kept, Transfer;
    KeptSelf(v.l, id);
    if ps != [] {
      var init, p := ps[..|ps| - 1], ps[|ps| - 1];
      SettleKept(id, d, r, v, init);
      var v1 := Settle(id, d, r, v, init).value;
      SettleOneKept(id, d, r, v1, p);
      hide SettleOne;
      KeptTwice(v.l, v1.l, SettleOne(id, d, r, v1, p).value.l, id);
    }
  }

  lemma SettleOneKept(id: RoscaId, d: Details, r: Account, v: View, p: Account)
    requires r.Member? && SettleOne(id, d, r, v, p).Ok?
    ensures Kept(v.l, SettleOne(id, d, r, v, p).value.l, id)
  {
    hide Kept, Transfer;
    KeptSelf(v.l, id);
    var held := v.c.Deposit(p);
    var x := if held < d.amount then held else d.amount;
    if Transfer(v.l, d.asset, Pot(id), r, x).Ok? {
      TransferKept(v.l, d.asset, Pot(id), r, x, id);
    }
  }

  lemma KeptSelf(l: Ledger, id: RoscaId)
    ensures Kept(l, l, id)
  {
  }

  ghost function Surplus(id: RoscaId, c: Circle, l: Ledger): int
    requires HasTerms(c)
  {
    l.Balance(Terms(c).asset, Pot(id)) - Sum(c.deposits)
  }

  /** Closing a round takes out of the pot exactly what it takes off the records. */
  lemma CloseRoundLedger(id: RoscaId, v: View, rs: seq<RoundInfo>, r: nat)
    requires Running(id, v.c, v.l, rs, r) && r <= |rs|
    ensures CloseRound(id, v).Ok?
    ensures var u := CloseRound(id, v).value;
            Kept(v.l, u.l, id) && HasTerms(u.c) && Terms(u.c) == Terms(v.c) && Surplus(id, u.c, u.l) == Surplus(id, v.c, v.l)
  {
    hide Positioned, Collecting, SavingsOk, DefaultsOk, BooksOk, Tally, Sum, Published, Ledger.Balance, Settle, Kept, Settled, Moved, Dues, Solvent;
    ProcessRunning(id, v, rs, r);
    CloseRoundRuns(id, v, rs, r);
    var d, x := Terms(v.c), v.c.claimant.value;
    var late := v.c.Members() - {x} - v.c.contributors;
    var v1 := ProcessDefaulters(id, v).value;
    SettleKept(id, d, x, v, v.c.order.value);
    assert v1.c.log[0] == v.c.log[0];
    SettledSolvent(id, v.c, v1.c, v.l, v1.l, x, late);
    var c2 := AdvanceRound(v1.c).value;
    assert c2.log[0] == v1.c.log[0];
  }

  lemma {:induction false} CloseRoundsLedger(id: RoscaId, v: View, m: nat, rs: seq<RoundInfo>, r: nat)
    requires Running(id, v.c, v.l, rs, r) && r + m <= |rs| + 1
    ensures CloseRounds(id, v, m).Ok?
    ensures var u := CloseRounds(id, v, m).value;
            Kept(v.l, u.l, id) && HasTerms(v.c) && HasTerms(u.c) && Terms(u.c) == Terms(v.c)
            && Surplus(id, u.c, u.l) == Surplus(id, v.c, v.l)
    decreases m
  {
    hide Running, CloseRound, Kept, Surplus;
    RunningTerms(id, v.c, v.l, rs, r);
    KeptSelf(v.l, id);
    if m > 0 {
      CloseRoundLedger(id, v, rs, r);
      CloseRoundRuns(id, v, rs, r);
      var v1 := CloseRound(id, v).value;
      CloseRoundsLedger(id, v1, m - 1, rs, r + 1);
      KeptTwice(v.l, v1.l, CloseRounds(id, v1, m - 1).value.l, id);
    }
  }

  lemma PayLedger(id: RoscaId, v: View, rs: seq<RoundInfo>, r: nat, signer: Account)
    requires Running(id, v.c, v.l, rs, r) && r <= |rs| && signer in v.c.Members() && v.c.finalPayBy.Some?
    requires Pay(v, Terms(v.c), v.c.finalPayBy.value, signer).Ok?
    ensures var u := Pay(v, Terms(v.c), v.c.finalPayBy.value, signer).value;
            Kept(v.l, u.l, id) && HasTerms(u.c) && Terms(u.c) == Terms(v.c) && Surplus(id, u.c, u.l) == Surplus(id, v.c, v.l)
  {
    hide SavingsOk, DefaultsOk, BooksOk, Tally, Sum, Published, Ledger.Balance, Transfer, Kept, ScheduleFor, OrderAt, DueAt, Collecting, Solvent;
    PaymentKeepsSolvent(id, v.c, v.l, rs, r, signer);
    var d, x := Terms(v.c), v.c.claimant.value;
    TransferKept(v.l, d.asset, signer, x, d.amount, id);
    TransferEffect(v.l, d.asset, signer, x, d.amount);
    var u := Pay(v, d, v.c.finalPayBy.value, signer).value;
    assert u.c.log[0] == v.c.log[0];
  }

  lemma ContributeLedger(id: RoscaId, v: View, now: u64, signer: Account, rs: seq<RoundInfo>, r: nat)
    requires Running(id, v.c, v.l, rs, r) && 1 <= r <= |rs| && ContributeToRosca(id, v, now, signer).Ok?
    ensures var u := ContributeToRosca(id, v, now, signer).value;
            Kept(v.l, u.l, id) && HasTerms(v.c) && HasTerms(u.c) && Terms(u.c) == Terms(v.c)
            && Surplus(id, u.c, u.l) == Surplus(id, v.c, v.l)
  {
    hide Running, CloseRounds, Pay, ContributeToRosca, Kept, AfterMissed, Surplus;
    ContributeIs(id, v, now, signer, rs, r);
    AfterMissedRuns(id, v, now, rs, r);
    AfterMissedLedger(id, v, now, rs, r);
    var w, u := Window(rs, r, now), AfterMissed(id, v, now, rs, r);
    RunningTerms(id, v.c, v.l, rs, r);
    RunningTerms(id, u.c, u.l, rs, w);
    if w > |rs| {
      CompleteLedger(id, u.c, u.l);
    } else {
      PayLedger(id, u, rs, w, signer);
      KeptTwice(v.l, u.l, Pay(u, Terms(v.c), v.c.finalPayBy.value, signer).value.l, id);
    }
  }

  lemma AfterMissedLedger(id: RoscaId, v: View, now: u64, rs: seq<RoundInfo>, r: nat)
    requires Running(id, v.c, v.l, rs, r) && 1 <= r <= |rs|
    ensures var u := AfterMissed(id, v, now, rs, r);
            Kept(v.l, u.l, id) && HasTerms(v.c) && HasTerms(u.c) && Terms(u.c) == Terms(v.c)
            && Surplus(id, u.c, u.l) == Surplus(id, v.c, v.l)
  {
    hide Running, CloseRounds, Kept, Surplus;
    CloseRoundsLedger(id, v, Window(rs, r, now) - r, rs, r);
  }

  lemma CompleteLedger(id: RoscaId, c: Circle, l: Ledger)
    requires HasTerms(c)
    ensures HasTerms(Complete(c)) && Terms(Complete(c)) == Terms(c) && Surplus(id, Complete(c), l) == Surplus(id, c, l)
  {
    assert Complete(c).log[0] == c.log[0];
  }

  lemma ManualEndLedger(id: RoscaId, v: View, now: u64, rs: seq<RoundInfo>, r: nat)
    requires Running(id, v.c, v.l, rs, r) && 1 <= r <= |rs| && ManuallyEnd(id, v, now).Ok?
    ensures var u := ManuallyEnd(id, v, now).value;
            Kept(v.l, u.l, id) && HasTerms(v.c) && HasTerms(u.c) && Terms(u.c) == Terms(v.c)
            && Surplus(id, u.c, u.l) == Surplus(id, v.c, v.l)
  {
    hide Running, Finished, CloseRounds, Kept, Surplus, ManuallyEnd, Complete;
    EndNeedsFinal(id, v, now);
    ManualEndSucceeds(id, v, now, rs, r);
    CloseRoundsLedger(id, v, |rs| + 1 - r, rs, r);
    var u := CloseRounds(id, v, |rs| + 1 - r).value;
    CompleteLedger(id, u.c, u.l);
  }

  lemma EndNeedsFinal(id: RoscaId, v: View, now: u64)
    requires ManuallyEnd(id, v, now).Ok?
    ensures v.c.finalPayBy.Some? && now > v.c.finalPayBy.value
  {
    hide EndLoop;
  }
}

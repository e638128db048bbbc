/** Adding to and claiming back a security deposit. */
module Deposits {
  import opened Prelude
  import opened Storage
  import opened Rules
  import opened Journal
  import opened Schedule
  import opened Rota
  import opened Accounts
  import opened Circles
  import opened Membership

  /** Only deposits changed, and one event about them was logged. */
  ghost predicate Touched(c: Circle, c': Circle, e: Event) {
    && (e.SecurityDepositContribution? || e.SecurityDepositClaimed?)
    && c' == c.(deposits := c'.deposits, log := c.log + [e])
  }

  lemma TouchedRunning(id: RoscaId, c: Circle, c': Circle, l: Ledger, l': Ledger, rs: seq<RoundInfo>, r: nat, e: Event)
    requires Running(id, c, l, rs, r) && Touched(c, c', e) && SavingsOk(c')
    requires |c'.log| > 0 && c'.log[0] == c.log[0] && Solvent(id, c', l')
    ensures Running(id, c', l', rs, r)
  {
    hide ScheduleFor, OrderAt, DueAt, SavingsOk, DefaultsOk, BooksOk, Tally, Sum, Published, Ledger.Balance;
    PushOther(c.log, e);
    PushBooks(c.log, e, c.Members(), c.contributors, rs, r);
    PushDefaults(c, c', e, r - 1);
  }

  lemma TouchedFinished(id: RoscaId, c: Circle, c': Circle, l: Ledger, l': Ledger, rs: seq<RoundInfo>, e: Event)
    requires Finished(id, c, l, rs) && Touched(c, c', e) && SavingsOk(c')
    requires |c'.log| > 0 && c'.log[0] == c.log[0] && Solvent(id, c', l')
    ensures Finished(id, c', l', rs)
  {
    hide ScheduleFor, SavingsOk, DefaultsOk, BooksOk, Tally, Sum, Published, Ledger.Balance;
    PushOther(c.log, e);
    PushBooks(c.log, e, c.Members(), {}, rs, |rs| + 1);
    PushDefaults(c, c', e, |rs|);
  }

  lemma TouchedPending(cfg: Config, id: RoscaId, c: Circle, c': Circle, l: Ledger, l': Ledger, e: Event)
    requires PendingOk(cfg, id, c, l) && Touched(c, c', e) && SavingsOk(c')
    requires |c'.log| > 0 && c'.log[0] == c.log[0] && Solvent(id, c', l')
    ensures PendingOk(cfg, id, c', l')
  {
    hide Quiet, SavingsOk, DefaultsOk, Tally, Sum, Published, Ledger.Balance, Seated, Fits;
    PushQuiet(c.log, e);
    PushDefaults(c, c', e, 0);
  }

  // ---------- adding ----------

  lemma PushAdded(log: seq<Event>, p: Account, amount: nat)
    ensures var log' := log + [SecurityDepositContribution(p, amount)];
            forall x ::
              && Tally(log', Taken(x)) == Tally(log, Taken(x))
              && Tally(log', Returned(x)) == Tally(log, Returned(x))
              && Tally(log', Added(x)) == Tally(log, Added(x)) + if x == p then amount else 0
  {
    Push(log, SecurityDepositContribution(p, amount));
    hide Tally;
  }

  /** Only members can add, only before completion, and exactly the amount goes from the member to the pot
      and onto the record; with funds the call fails only if the record would overflow. */
  lemma AddIs(id: RoscaId, v: View, d: Details, signer: Account, amount: u32)
    requires v.c.active.Or(v.c.pending) == Some(d)
    ensures AddDeposit(id, v, signer, amount).Ok? <==>
              && signer in v.c.participants && !v.c.completed
              && v.l.Balance(d.asset, signer) >= amount && v.c.Deposit(signer) + amount <= U32_MAX
    ensures AddDeposit(id, v, signer, amount).Ok? ==>
              var u := AddDeposit(id, v, signer, amount).value;
              && Touched(v.c, u.c, SecurityDepositContribution(signer, amount))
              && u.c.deposits == v.c.deposits[signer := v.c.Deposit(signer) + amount]
              && Moved(v.l, u.l, d.asset, signer, Pot(id), amount)
  {
    hide Transfer, Moved, Ledger.Balance;
    TransferEffect(v.l, d.asset, signer, Pot(id), amount);
  }

  lemma AddBooks(c: Circle, c': Circle, signer: Account, amount: u32)
    requires SavingsOk(c) && signer in c.Members() && c.Deposit(signer) + amount <= U32_MAX
    requires Touched(c, c', SecurityDepositContribution(signer, amount))
    requires c'.deposits == c.deposits[signer := c.Deposit(signer) + amount]
    ensures SavingsOk(c') && Sum(c'.deposits) == Sum(c.deposits) + amount
  {
    hide Tally, Sum;
    PushAdded(c.log, signer, amount);
    SumUpdate(c.deposits, signer, c.Deposit(signer) + amount);
    assert forall p :: c'.Deposit(p) == c.Deposit(p) + if p == signer then amount else 0;
    hide Circle.Deposit;
  }

  lemma AddKeeps(id: RoscaId, v: View, signer: Account, amount: u32)
    requires HasTerms(v.c) && v.c.active.Or(v.c.pending) == Some(Terms(v.c)) && AddDeposit(id, v, signer, amount).Ok?
    requires SavingsOk(v.c) && Solvent(id, v.c, v.l) && signer.Member?
    ensures var u := AddDeposit(id, v, signer, amount).value;
            && Touched(v.c, u.c, SecurityDepositContribution(signer, amount))
            && |u.c.log| > 0 && u.c.log[0] == v.c.log[0]
            && SavingsOk(u.c) && Solvent(id, u.c, u.l)
            && u.l.Balance(Terms(v.c).asset, Pot(id)) - Sum(u.c.deposits) == v.l.Balance(Terms(v.c).asset, Pot(id)) - Sum(v.c.deposits)
  {
    hide AddDeposit, SavingsOk, Sum, Tally, Ledger.Balance;
    AddIs(id, v, Terms(v.c), signer, amount);
    AddBooks(v.c, AddDeposit(id, v, signer, amount).value.c, signer, amount);
  }

  // ---------- claiming ----------

  /** A deposit is paid back once the circle is completed and the final deadline has passed. */
  lemma ClaimIs(id: RoscaId, v: View, now: u64, signer: Account, asset: Asset)
    requires v.c.finalPayBy.Some?
    ensures ClaimDeposit(id, v, now, signer, asset).Ok? <==>
              && now > v.c.finalPayBy.value && (v.c.pending.Some? || v.c.completed)
              && v.c.Deposit(signer) > 0 && v.l.Balance(asset, Pot(id)) >= v.c.Deposit(signer)
    ensures ClaimDeposit(id, v, now, signer, asset).Ok? ==>
              var u := ClaimDeposit(id, v, now, signer, asset).value;
              && Touched(v.c, u.c, SecurityDepositClaimed(signer, v.c.Deposit(signer)))
              && u.c.deposits == v.c.deposits - {signer}
              && Moved(v.l, u.l, asset, Pot(id), signer, v.c.Deposit(signer))
  {
    hide Transfer, Moved, Ledger.Balance;
    TransferEffect(v.l, asset, Pot(id), signer, v.c.Deposit(signer));
  }

  lemma ClaimKeeps(id: RoscaId, v: View, now: u64, signer: Account, asset: Asset)
    requires HasTerms(v.c) && v.c.finalPayBy.Some? && ClaimDeposit(id, v, now, signer, asset).Ok?
    requires SavingsOk(v.c) && Solvent(id, v.c, v.l) && signer.Member?
    ensures var u := ClaimDeposit(id, v, now, signer, asset).value;
            && Touched(v.c, u.c, SecurityDepositClaimed(signer, v.c.Deposit(signer)))
            && |u.c.log| > 0 && u.c.log[0] == v.c.log[0]
            && SavingsOk(u.c) && Solvent(id, u.c, u.l)
            && u.l.Balance(Terms(v.c).asset, Pot(id)) - Sum(u.c.deposits)
            == v.l.Balance(Terms(v.c).asset, Pot(id)) - Sum(v.c.deposits) + if asset == Terms(v.c).asset then 0 else v.c.Deposit(signer)
  {
    hide ClaimDeposit, SavingsOk, Sum, Tally, Ledger.Of;
    ClaimIs(id, v, now, signer, asset);
    RefundBooks(v.c, ClaimDeposit(id, v, now, signer, asset).value.c, signer);
    SumDrop(v.c.deposits, signer);
  }

  /** Every positive deposit of a completed circle can be claimed in the circle's own asset. */
  lemma ClaimSucceeds(id: RoscaId, v: View, now: u64, signer: Account, rs: seq<RoundInfo>)
    requires Finished(id, v.c, v.l, rs) && now > rs[|rs| - 1].cutoff && v.c.Deposit(signer) > 0
    ensures ClaimDeposit(id, v, now, signer, Terms(v.c).asset).Ok?
    ensures signer !in ClaimDeposit(id, v, now, signer, Terms(v.c).asset).value.c.deposits
  {
    hide ClaimDeposit, SavingsOk, DefaultsOk, BooksOk, ScheduleFor, Sum, Tally, Published;
    SumUpdate(v.c.deposits, signer, 0);
    ClaimIs(id, v, now, signer, Terms(v.c).asset);
  }
}

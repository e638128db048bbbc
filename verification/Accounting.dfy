/** Whole-run accounting: what each member did in each round, and when somebody is left out. */
module Accounting {
  import opened Prelude
  import opened Storage
  import opened Rules
  import opened Journal
  import opened Schedule
  import opened Settlement
  import opened Rota
  import opened Accounts
  import opened Circles
  import opened Deadlines
  import opened Payments
  import opened Chronicle

  // ---------- paying oneself ----------

  /** The member is the recipient of the round that is running at `now` once the missed ones are closed. */
  ghost predicate PaysSelf(rs: seq<RoundInfo>, r: nat, now: u64, signer: Account)
    requires 1 <= r <= |rs| + 1
  {
    Window(rs, r, now) <= |rs| && rs[Window(rs, r, now) - 1].recipient == signer
  }

  ghost predicate SamePaid(log: seq<Event>, log': seq<Event>) {
    forall p, x :: Tally(log', Paid(p, x)) == Tally(log, Paid(p, x))
  }

  lemma PushSamePaid(log: seq<Event>, e: Event)
    requires !e.ContributionMade?
    ensures SamePaid(log, log + [e])
  {
    Push(log, e);
    hide Tally;
  }

  lemma SettledSamePaid(d: Details, r: Account, c: Circle, c': Circle, late: set<Account>)
    requires Settled(d, r, c, c', late)
    ensures SamePaid(c.log, c'.log)
  {
    hide Tally, Sum;
  }

  lemma CloseRoundPaid(id: RoscaId, v: View, rs: seq<RoundInfo>, r: nat)
    requires Running(id, v.c, v.l, rs, r) && r <= |rs|
    ensures CloseRound(id, v).Ok? && SamePaid(v.c.log, CloseRound(id, v).value.c.log)
  {
    hide Running, SamePaid, Settle, Settled, Moved, Sum, Dues;
    RunningTerms(id, v.c, v.l, rs, r);
    ProcessRunning(id, v, rs, r);
    CloseRoundRuns(id, v, rs, r);
    var v1 := ProcessDefaulters(id, v).value;
    SettledSamePaid(Terms(v.c), v.c.claimant.value, v.c, v1.c, v.c.Members() - {v.c.claimant.value} - v.c.contributors);
    var c2 := AdvanceRound(v1.c).value;
    PushSamePaid(v1.c.log, c2.log[|v1.c.log|]);
    assert c2.log == v1.c.log + [c2.log[|v1.c.log|]];
    SamePaidTwice(v.c.log, v1.c.log, c2.log);
  }

  lemma SamePaidTwice(log: seq<Event>, log1: seq<Event>, log2: seq<Event>)
    requires SamePaid(log, log1) && SamePaid(log1, log2)
    ensures SamePaid(log, log2)
  {
    hide Tally;
  }

  lemma {:induction false} CloseRoundsPaid(id: RoscaId, v: View, m: nat, rs: seq<RoundInfo>, r: nat)
    requires Running(id, v.c, v.l, rs, r) && r + m <= |rs| + 1
    ensures CloseRounds(id, v, m).Ok? && SamePaid(v.c.log, CloseRounds(id, v, m).value.c.log)
    decreases m
  {
    hide Running, CloseRound, SamePaid;
    if m == 0 {
      SamePaidSelf(v.c.log);
    } else {
      CloseRoundPaid(id, v, rs, r);
      CloseRoundRuns(id, v, rs, r);
      var v1 := CloseRound(id, v).value;
      CloseRoundsPaid(id, v1, m - 1, rs, r + 1);
      SamePaidTwice(v.c.log, v1.c.log, CloseRounds(id, v1, m - 1).value.c.log);
    }
  }

  lemma SamePaidSelf(log: seq<Event>)
    ensures SamePaid(log, log)
  {
  }

  /** Exactly one payment, by p to x, was added. */
  ghost predicate OnePaid(log: seq<Event>, log': seq<Event>, p: Account, x: Account) {
    forall q, y :: Tally(log', Paid(q, y)) == Tally(log, Paid(q, y)) + If(q == p && y == x)
  }

  lemma PayPaid(id: RoscaId, v: View, rs: seq<RoundInfo>, r: nat, signer: Account)
    requires Running(id, v.c, v.l, rs, r) && 1 <= r <= |rs| && v.c.finalPayBy.Some?
    requires Pay(v, Terms(v.c), v.c.finalPayBy.value, signer).Ok?
    ensures OnePaid(v.c.log, Pay(v, Terms(v.c), v.c.finalPayBy.value, signer).value.c.log, signer, rs[r - 1].recipient)
  {
    hide Running, Tally, Pay;
    RunningTerms(id, v.c, v.l, rs, r);
    RunningClaimant(id, v.c, v.l, rs, r);
    var x := v.c.claimant.value;
    PayLog(v, Terms(v.c), v.c.finalPayBy.value, signer);
    var e, log := ContributionMade(signer, x, Terms(v.c).amount), Pay(v, Terms(v.c), v.c.finalPayBy.value, signer).value.c.log;
    PushOnePaid(v.c.log, signer, x, Terms(v.c).amount);
    if log != v.c.log + [e] {
      PushSamePaid(v.c.log + [e], log[|v.c.log| + 1]);
    }
  }

  lemma PushOnePaid(log: seq<Event>, p: Account, x: Account, amount: nat)
    ensures OnePaid(log, log + [ContributionMade(p, x, amount)], p, x)
  {
    Push(log, ContributionMade(p, x, amount));
    hide Tally;
  }

  lemma PayLog(v: View, d: Details, final: u64, signer: Account)
    requires Pay(v, d, final, signer).Ok?
    ensures v.c.claimant.Some?
    ensures var log, log' := v.c.log + [ContributionMade(signer, v.c.claimant.value, d.amount)], Pay(v, d, final, signer).value.c.log;
            log' == log || (|log'| == |log| + 1 && log' == log + [log'[|log|]] && !log'[|log|].ContributionMade?)
  {
    hide Transfer;
  }

  lemma RunningClaimant(id: RoscaId, c: Circle, l: Ledger, rs: seq<RoundInfo>, r: nat)
    requires Running(id, c, l, rs, r) && 1 <= r <= |rs|
    ensures c.claimant == Some(rs[r - 1].recipient)
  {
    ClaimantIsScheduled(c, Terms(c).frequency, rs, r);
  }

  /** A contribution pays its own signer if and only if the signer is the scheduled recipient at that time;
      the check against paying oneself looks at the round before the missed deadlines are processed. */
  lemma SelfPaymentIff(id: RoscaId, v: View, now: u64, signer: Account, rs: seq<RoundInfo>, r: nat)
    requires Running(id, v.c, v.l, rs, r) && 1 <= r <= |rs| && ContributeToRosca(id, v, now, signer).Ok?
    ensures forall p :: Tally(ContributeToRosca(id, v, now, signer).value.c.log, Paid(p, p))
                     == Tally(v.c.log, Paid(p, p)) + If(p == signer && PaysSelf(rs, r, now, signer))
  {
    hide Running, CloseRounds, Pay, ContributeToRosca, Tally, Complete;
    ContributeIs(id, v, now, signer, rs, r);
    AfterMissedRuns(id, v, now, rs, r);
    var w, u := Window(rs, r, now), AfterMissed(id, v, now, rs, r);
    CloseRoundsPaid(id, v, w - r, rs, r);
    RunningTerms(id, v.c, v.l, rs, r);
    RunningTerms(id, u.c, u.l, rs, w);
    if w > |rs| {
      CompleteLog(u.c);
      PushSamePaid(u.c.log, RoscaComplete);
    } else {
      PayPaid(id, u, rs, w, signer);
    }
  }

  lemma CompleteLog(c: Circle)
    ensures Complete(c).log == c.log + [RoscaComplete]
  {
  }

  // ---------- totals ----------

  /** In how many of the first k rounds p was left out. */
  ghost function Escapes(log: seq<Event>, members: set<Account>, rs: seq<RoundInfo>, p: Account, k: nat): nat
    requires k <= |rs|
  {
    if k == 0 then 0
    else Escapes(log, members, rs, p, k - 1) + If(p in Escaped(log, members, rs[k - 1].recipient))
  }

  ghost function MarksOver(log: seq<Event>, rs: seq<RoundInfo>, p: Account, k: nat): nat
    requires k <= |rs|
  {
    if k == 0 then 0 else MarksOver(log, rs, p, k - 1) + Marks(log, p, rs[k - 1].recipient)
  }

  lemma {:induction false} MarksAreKinds(log: seq<Event>, rs: seq<RoundInfo>, p: Account, k: nat)
    requires k <= |rs|
    ensures MarksOver(log, rs, p, k) == OverRounds(log, ByPaying, p, rs, k) + OverRounds(log, ByDeposit, p, rs, k) + OverRounds(log, ByDefault, p, rs, k)
  {
    hide Tally;
    if k > 0 {
      MarksAreKinds(log, rs, p, k - 1);
    }
  }

  /** A closed round contributes one mark to everyone else, unless it left them out. */
  lemma ClosedMark(log: seq<Event>, members: set<Account>, r: Account, p: Account)
    requires Closed(log, members, r) && p in members
    ensures p != r ==> Marks(log, p, r) + If(p in Escaped(log, members, r)) == 1
    ensures p == r ==> Marks(log, p, r) == Tally(log, Paid(p, p)) && p !in Escaped(log, members, r)
  {
    hide Tally;
  }

  lemma {:induction false} MarksSum(log: seq<Event>, members: set<Account>, rs: seq<RoundInfo>, p: Account, own: nat, k: nat)
    requires BooksOk(log, members, {}, rs, |rs| + 1) && p in members && k <= |rs|
    requires own < |rs| && rs[own].recipient == p && Distinct(Recipients(rs))
    ensures MarksOver(log, rs, p, k) + Escapes(log, members, rs, p, k) == k - If(own < k) + If(own < k) * Tally(log, Paid(p, p))
  {
    hide Tally, Closed, Marks, Escaped, Open;
    if k > 0 {
      MarksSum(log, members, rs, p, own, k - 1);
      assert RoundState(log, members, {}, rs[k - 1].recipient, k, |rs| + 1);
      ClosedMark(log, members, rs[k - 1].recipient, p);
      if own != k - 1 {
        assert Recipients(rs)[own] != Recipients(rs)[k - 1];
      }
    }
  }

  /** At completion, for every member: payments + rounds covered by the deposit + defaults, plus the rounds in
      which nothing was recorded, make n - 1, with one more for a payment to oneself. */
  lemma AccountsAddUp(id: RoscaId, c: Circle, l: Ledger, rs: seq<RoundInfo>, p: Account)
    requires Finished(id, c, l, rs) && Orderly(c.log) && p in c.Members()
    ensures Tally(c.log, PaidBy(p)) + Tally(c.log, CoveredFor(p)) + c.Defaults(p) + Escapes(c.log, c.Members(), rs, p, |rs|)
         == |rs| - 1 + Tally(c.log, Paid(p, p))
  {
    hide Finished, BooksOk, Tally, Orderly, Published, Escapes, OverRounds, MarksOver, Recipients, Circle.Defaults;
    FinishedParts(id, c, l, rs, p);
    var own :| 0 <= own < |rs| && rs[own].recipient == p;
    TotalsAreSums(c.log, ByPaying, p);
    TotalsAreSums(c.log, ByDeposit, p);
    TotalsAreSums(c.log, ByDefault, p);
    MarksAreKinds(c.log, rs, p, |rs|);
    MarksSum(c.log, c.Members(), rs, p, own, |rs|);
  }

  lemma FinishedParts(id: RoscaId, c: Circle, l: Ledger, rs: seq<RoundInfo>, p: Account)
    requires Finished(id, c, l, rs) && p in c.Members()
    ensures |rs| > 0 && Published(c.log) == rs && Distinct(Recipients(rs)) && BooksOk(c.log, c.Members(), {}, rs, |rs| + 1)
    ensures c.Defaults(p) == Tally(c.log, MissedBy(p))
    ensures exists own :: 0 <= own < |rs| && rs[own].recipient == p
  {
    hide SavingsOk, Solvent, BooksOk, Tally;
    ScheduleSize(rs, c.Members(), Terms(c).frequency);
  }

  ghost predicate NobodyPaidSelf(log: seq<Event>) {
    forall p :: Tally(log, Paid(p, p)) == 0
  }

  lemma {:induction false} NoEscapes(log: seq<Event>, members: set<Account>, rs: seq<RoundInfo>, p: Account, k: nat)
    requires BooksOk(log, members, {}, rs, |rs| + 1) && NobodyPaidSelf(log) && k <= |rs|
    ensures Escapes(log, members, rs, p, k) == 0
  {
    hide Tally, Escaped;
    if k > 0 {
      NoEscapes(log, members, rs, p, k - 1);
      assert RoundState(log, members, {}, rs[k - 1].recipient, k, |rs| + 1);
      assert Escaped(log, members, rs[k - 1].recipient) == {};
    }
  }

  /** If nobody ever paid into their own round, then at completion own payments + rounds covered in full by the
      deposit + the default count make exactly n - 1 for every member, and the default count is below n. */
  lemma FullAccounting(id: RoscaId, c: Circle, l: Ledger, rs: seq<RoundInfo>, p: Account)
    requires Finished(id, c, l, rs) && Orderly(c.log) && p in c.Members() && NobodyPaidSelf(c.log)
    ensures Tally(c.log, PaidBy(p)) + Tally(c.log, CoveredFor(p)) + c.Defaults(p) == |rs| - 1
  {
    hide Finished, BooksOk, Tally, Orderly, Published, Escapes, Circle.Defaults;
    FinishedParts(id, c, l, rs, p);
    AccountsAddUp(id, c, l, rs, p);
    NoEscapes(c.log, c.Members(), rs, p, |rs|);
  }

  /** Everybody else is accounted for in a closed round if and only if the recipient's own contribution
      was not one of the n - 1 that ended it. */
  lemma NobodyEscapesIff(log: seq<Event>, members: set<Account>, r: Account)
    requires Closed(log, members, r)
    ensures (forall p :: p in members && p != r ==> Marks(log, p, r) == 1) <==> !SelfPaidOut(log, members, r)
  {
    hide Tally, SelfPaidOut;
    var out := Escaped(log, members, r);
    if SelfPaidOut(log, members, r) {
      assert out != {};
      var p :| p in out;
      assert Marks(log, p, r) == 0;
    } else {
      assert out == {};
      forall p | p in members && p != r ensures Marks(log, p, r) == 1 {
        assert p !in out;
      }
    }
  }
}

/** What a member pays into the rounds of others and receives in their own, in money. */
module Payouts {
  import opened Prelude
  import opened Storage
  import opened Rules
  import opened Journal
  import opened Schedule
  import opened Rota
  import opened Accounts
  import opened Circles
  import opened Membership
  import opened Ledgers
  import opened Mirror
  import opened Accounting
  import opened Runs
  import opened Agreement
  import opened Theorems
  import opened IndexerTheorems
  import opened Statements

  /** Money into rounds: from p to r, from p to anyone, from anyone to r. */
  datatype Side = Pair(p: Account, r: Account) | From(p: Account) | Into(r: Account)

  predicate Matches(s: Side, p: Account, r: Account) {
    s == Pair(p, r) || s == From(p) || s == Into(r)
  }

  /** What an event moves into a round, by contribution or out of a deposit, and what of it is a deposit that fell short. */
  function Part(e: Event, s: Side): nat {
    match e
    case ContributionMade(p, r, amount) => if Matches(s, p, r) then amount else 0
    case DepositDeducted(p, r, amount, _) => if Matches(s, p, r) then amount else 0
    case _ => 0
  }

  function ShortPart(e: Event, s: Side): nat {
    if e.DepositDeducted? && !e.sufficient then Part(e, s) else 0
  }

  ghost function Total(log: seq<Event>, s: Side): nat {
    if log == [] then 0 else Total(log[..|log| - 1], s) + Part(log[|log| - 1], s)
  }

  ghost function Short(log: seq<Event>, s: Side): nat {
    if log == [] then 0 else Short(log[..|log| - 1], s) + ShortPart(log[|log| - 1], s)
  }

  // ---------- every amount is the agreed one, or a deposit that fell short ----------

  predicate FairEvent(e: Event, amount: nat) {
    && (e.ContributionMade? ==> e.paid == amount)
    && (e.DepositDeducted? ==> if e.sufficient then e.deducted == amount else e.deducted < amount)
  }

  ghost predicate FairAmounts(log: seq<Event>, amount: nat) {
    forall e :: e in log ==> FairEvent(e, amount)
  }

  /** A deposit that falls short comes with a default. */
  ghost predicate ShortDefaults(log: seq<Event>) {
    forall p, r :: Tally(log, Docked(p, r)) <= Tally(log, Covered(p, r)) + Tally(log, Missed(p, r))
  }

  ghost predicate Fair(log: seq<Event>, amount: nat) {
    FairAmounts(log, amount) && ShortDefaults(log)
  }

  /** Any event but a deduction. */
  lemma FairPush(log: seq<Event>, e: Event, amount: nat)
    requires Fair(log, amount) && FairEvent(e, amount) && (!e.DepositDeducted? || e.sufficient)
    ensures Fair(log + [e], amount)
  {
    Push(log, e);
    hide Tally;
  }

  lemma FairShort(log: seq<Event>, p: Account, r: Account, held: nat, amount: nat)
    requires Fair(log, amount) && held < amount
    ensures Fair(log + [DepositDeducted(p, r, held, false)] + [ParticipantDefaulted(r, p)], amount)
  {
    var log1 := log + [DepositDeducted(p, r, held, false)];
    Push(log, DepositDeducted(p, r, held, false));
    Push(log1, ParticipantDefaulted(r, p));
    hide Tally;
  }

  lemma SettleOneFair(id: RoscaId, d: Details, r: Account, v: View, p: Account)
    requires Fair(v.c.log, d.amount) && SettleOne(id, d, r, v, p).Ok?
    ensures Fair(SettleOne(id, d, r, v, p).value.c.log, d.amount)
  {
    hide Fair, Transfer;
    if p != r && p !in v.c.contributors {
      var held := v.c.Deposit(p);
      if held >= d.amount {
        FairPush(v.c.log, DepositDeducted(p, r, d.amount, true), d.amount);
      } else if held == 0 {
        FairPush(v.c.log, ParticipantDefaulted(r, p), d.amount);
      } else {
        FairShort(v.c.log, p, r, held, d.amount);
      }
    }
  }

  lemma {:induction false} SettleFair(id: RoscaId, d: Details, r: Account, v: View, ps: seq<Account>)
    requires Fair(v.c.log, d.amount) && Settle(id, d, r, v, ps).Ok?
    ensures Fair(Settle(id, d, r, v, ps).value.c.log, d.amount)
  {
    hide Fair, SettleOne;
    if ps != [] {
      var init := ps[..|ps| - 1];
      SettleFair(id, d, r, v, init);
      SettleOneFair(id, d, r, Settle(id, d, r, v, init).value, ps[|ps| - 1]);
    }
  }

  lemma CloseRoundFair(id: RoscaId, v: View)
    requires CloseRound(id, v).Ok? && v.c.active.Some? && Fair(v.c.log, v.c.active.value.amount)
    ensures CloseRound(id, v).value.c.active == v.c.active && Fair(CloseRound(id, v).value.c.log, v.c.active.value.amount)
  {
    hide Fair, Settle, ClearPrefix;
    var d := v.c.active.value;
    var v1, u := ProcessDefaulters(id, v).value, CloseRound(id, v).value;
    SettleFair(id, d, v.c.claimant.value, v, v.c.order.value);
    FairPush(v1.c.log, u.c.log[|v1.c.log|], d.amount);
    assert u.c.log == v1.c.log + [u.c.log[|v1.c.log|]];
  }

  lemma {:induction false} CatchUpFair(id: RoscaId, v: View, now: u64)
    requires v.c.active.Some? && CatchUp(id, v, now).Ok? && Fair(v.c.log, v.c.active.value.amount)
    ensures Fair(CatchUp(id, v, now).value.v.c.log, v.c.active.value.amount)
    decreases if v.c.nextPayBy.Some? && v.c.nextPayBy.value <= now then now - v.c.nextPayBy.value + 1 else 0
  {
    hide Fair, ProcessDefaulters, AdvanceRound, CloseRound;
    if v.c.nextPayBy.value <= now {
      CloseRoundFair(id, v);
      var v1 := CloseRound(id, v).value;
      if CheckAndComplete(v1.c).value.done {
        FairPush(v1.c.log, RoscaComplete, v.c.active.value.amount);
      } else {
        CatchUpFair(id, v1, now);
      }
    }
  }

  lemma {:induction false} EndLoopFair(id: RoscaId, v: View, final: u64)
    requires v.c.active.Some? && EndLoop(id, v, final).Ok? && Fair(v.c.log, v.c.active.value.amount)
    ensures Fair(EndLoop(id, v, final).value.c.log, v.c.active.value.amount)
    decreases if v.c.nextPayBy.Some? && v.c.nextPayBy.value <= final then final - v.c.nextPayBy.value + 1 else 0
  {
    hide Fair, ProcessDefaulters, AdvanceRound, CloseRound;
    if v.c.nextPayBy.Some? && v.c.nextPayBy.value <= final {
      CloseRoundFair(id, v);
      EndLoopFair(id, CloseRound(id, v).value, final);
    }
  }

  lemma PayFair(v: View, d: Details, final: u64, signer: Account)
    requires Pay(v, d, final, signer).Ok? && Fair(v.c.log, d.amount)
    ensures Fair(Pay(v, d, final, signer).value.c.log, d.amount)
  {
    hide Fair, Transfer, ClearPrefix;
    var u, e := Pay(v, d, final, signer).value, ContributionMade(signer, v.c.claimant.value, d.amount);
    FairPush(v.c.log, e, d.amount);
    var log := v.c.log + [e];
    if u.c.log != log {
      FairPush(log, u.c.log[|log|], d.amount);
      assert u.c.log == log + [u.c.log[|log|]];
    }
  }

  lemma ContributeFair(id: RoscaId, v: View, now: u64, signer: Account)
    requires ContributeToRosca(id, v, now, signer).Ok? && v.c.active.Some? && Fair(v.c.log, v.c.active.value.amount)
    ensures Fair(ContributeToRosca(id, v, now, signer).value.c.log, v.c.active.value.amount)
  {
    hide Fair, CatchUp, Pay;
    CatchUpFair(id, v, now);
    var k := CatchUp(id, v, now).value;
    if !k.done {
      PayFair(k.v, v.c.active.value, v.c.finalPayBy.value, signer);
    }
  }

  lemma ManualEndFair(id: RoscaId, v: View, now: u64)
    requires ManuallyEnd(id, v, now).Ok? && v.c.active.Some? && Fair(v.c.log, v.c.active.value.amount)
    ensures Fair(ManuallyEnd(id, v, now).value.c.log, v.c.active.value.amount)
  {
    hide Fair, EndLoop;
    EndLoopFair(id, v, v.c.finalPayBy.value);
    FairPush(EndLoop(id, v, v.c.finalPayBy.value).value.c.log, RoscaComplete, v.c.active.value.amount);
  }

  lemma LeaveFair(id: RoscaId, v: View, signer: Account, amount: nat)
    requires LeaveRosca(id, v, signer).Ok? && Fair(v.c.log, amount)
    ensures Fair(LeaveRosca(id, v, signer).value.c.log, amount)
  {
    hide Fair, Transfer;
    var e := SecurityDepositClaimed(signer, v.c.Deposit(signer));
    FairPush(v.c.log, e, amount);
    FairPush(v.c.log, LeftRosca(signer), amount);
    FairPush(v.c.log + [e], LeftRosca(signer), amount);
  }

  lemma CallFair(cfg: Config, now: u64, v: View, signer: Account, call: Call)
    requires Well(cfg, call.id, v.c, v.l) && CallOn(cfg, now, v, signer, call).Ok?
    requires HasTerms(v.c) && Fair(v.c.log, Terms(v.c).amount)
    ensures Fair(CallOn(cfg, now, v, signer, call).value.c.log, Terms(v.c).amount)
  {
    hide Well, Fair, ContributeToRosca, ManuallyEnd, LeaveRosca, Transfer, GenerateRounds, AddTimes, Filled, Shuffle;
    var id, amount, log := call.id, Terms(v.c).amount, v.c.log;
    match call {
      case Join(_, _) => FairPush(log, JoinedRosca(signer), amount);
      case Leave(_) => LeaveFair(id, v, signer, amount);
      case Start(_, byte) =>
        var c' := StartRosca(cfg, v.c, now, signer, byte).value;
        FairPush(log, c'.log[|log|], amount);
        assert c'.log == log + [c'.log[|log|]];
      case Contribute(_) =>
        ActiveTerms(cfg, id, v.c, v.l);
        CallNeeds(cfg, now, v, signer, call);
        ContributeFair(id, v, now, signer);
      case ManualEnd(_) =>
        ActiveTerms(cfg, id, v.c, v.l);
        CallNeeds(cfg, now, v, signer, call);
        ManualEndFair(id, v, now);
      case Claim(_, _) => FairPush(log, SecurityDepositClaimed(signer, v.c.deposits[signer]), amount);
      case Add(_, n) => FairPush(log, SecurityDepositContribution(signer, n), amount);
    }
  }

  lemma ActiveTerms(cfg: Config, id: RoscaId, c: Circle, l: Ledger)
    requires Well(cfg, id, c, l)
    ensures HasTerms(c) && (c.active.Some? ==> c.active.value == Terms(c))
  {
    hide Seating, Quiet, SavingsOk, DefaultsOk, Solvent, Positioned, Collecting;
  }

  /** Every circle's log is fair, at the amount agreed on. */
  ghost predicate AllFair(w: World) {
    forall id: RoscaId :: w.Has(id) ==> HasTerms(w.At(id)) && Fair(w.At(id).log, Terms(w.At(id)).amount)
  }

  lemma StepFair(w: World, m: Move)
    requires Sound(w) && Fresh(w, m) && AllFair(w)
    ensures AllFair(Step(w, m))
  {
    hide Well, Fair, CallOn, CreateRosca, Transfer, GoodStep;
    var w' := Step(w, m);
    forall id: RoscaId | w'.Has(id) ensures HasTerms(w'.At(id)) && Fair(w'.At(id).log, Terms(w'.At(id)).amount) {
      if w' == w {
      } else if m.Do? && m.call.id == id {
        DoSound(w, m.signer, m.call);
        TermsAfter(w, m);
        CallFair(w.cfg, w.now, View(w.At(id), w.ledger), m.signer, m.call);
      } else if m.Create? && id == w.nextId {
        CreatedFair(w, m);
      } else {
        assert w'.At(id) == w.At(id);
      }
    }
  }

  lemma TermsAfter(w: World, m: Move)
    requires Sound(w) && m.Do? && Step(w, m) != w
    ensures var c, c' := w.At(m.call.id), Step(w, m).At(m.call.id); HasTerms(c) && HasTerms(c') && Terms(c') == Terms(c)
  {
    hide Well, CallOn, Kept, Ledgers.Surplus, Gain;
    DoSound(w, m.signer, m.call);
  }

  lemma CreatedFair(w: World, m: Move)
    requires Sound(w) && Fresh(w, m) && m.Create? && Step(w, m) != w
    ensures var c := Step(w, m).At(w.nextId); HasTerms(c) && Fair(c.log, Terms(c).amount)
  {
    hide SortDedup, Fair;
    var c := Step(w, m).At(w.nextId);
    NothingFair(c.log[0].details.amount);
    FairPush([], c.log[0], c.log[0].details.amount);
    assert c.log == [] + [c.log[0]];
  }

  lemma NothingFair(amount: nat)
    ensures Fair([], amount)
  {
  }

  lemma {:induction false} RunFair(w: World, ms: seq<Move>)
    requires Sound(w) && FreshRun(w, ms) && AllFair(w)
    ensures AllFair(Run(w, ms))
  {
    hide Well, Step, AllFair, Fresh;
    if ms != [] {
      var before := ms[..|ms| - 1];
      RunFair(w, before);
      RunSound(w, before);
      StepFair(Run(w, before), ms[|ms| - 1]);
    }
  }

  // ---------- amounts from counts ----------

  /** How often the full amount is paid. */
  ghost function Times(log: seq<Event>, s: Side): nat
    requires !s.Into?
  {
    if s.Pair? then Tally(log, Paid(s.p, s.r)) + Tally(log, Covered(s.p, s.r)) else Tally(log, PaidBy(s.p)) + Tally(log, CoveredFor(s.p))
  }

  lemma {:induction false} TotalIs(log: seq<Event>, amount: nat, s: Side)
    requires FairAmounts(log, amount) && !s.Into?
    ensures Total(log, s) == Times(log, s) * amount + Short(log, s)
  {
    if log != [] {
      var init, e := log[..|log| - 1], log[|log| - 1];
      TotalIs(init, amount, s);
      assert log == init + [e] && e in log;
      Push(init, e);
      hide Tally, Total, Short, FairAmounts;
      TotalStep(init, e, amount, s);
    }
  }

  lemma TotalPush(log: seq<Event>, e: Event)
    ensures forall s :: Total(log + [e], s) == Total(log, s) + Part(e, s)
    ensures forall s :: Short(log + [e], s) == Short(log, s) + ShortPart(e, s)
  {
    assert (log + [e])[..|log|] == log;
  }

  /** Does the event pay the full amount? */
  predicate IsFull(e: Event, s: Side) {
    || (e.ContributionMade? && Matches(s, e.contributor, e.recipient))
    || (e.DepositDeducted? && e.sufficient && Matches(s, e.debtor, e.creditor))
  }

  lemma TimesPush(log: seq<Event>, e: Event, s: Side)
    requires !s.Into?
    ensures Times(log + [e], s) == Times(log, s) + If(IsFull(e, s))
  {
    Push(log, e);
    hide Tally;
  }

  lemma TotalStep(log: seq<Event>, e: Event, amount: nat, s: Side)
    requires !s.Into? && FairEvent(e, amount) && Total(log, s) == Times(log, s) * amount + Short(log, s)
    ensures Total(log + [e], s) == Times(log + [e], s) * amount + Short(log + [e], s)
  {
    hide Tally, Total, Short, Times;
    TotalPush(log, e);
    TimesPush(log, e, s);
    assert (Times(log, s) + If(IsFull(e, s))) * amount == Times(log, s) * amount + If(IsFull(e, s)) * amount;
  }

  /** Nothing fell short where every deduction was in full. */
  lemma {:induction false} NothingShort(log: seq<Event>, p: Account, r: Account)
    requires Tally(log, Docked(p, r)) == Tally(log, Covered(p, r))
    ensures Short(log, Pair(p, r)) == 0
  {
    if log != [] {
      CoveredIsDocked(log[..|log| - 1], p, r);
      NothingShort(log[..|log| - 1], p, r);
    }
  }

  lemma {:induction false} CoveredIsDocked(log: seq<Event>, p: Account, r: Account)
    ensures Tally(log, Covered(p, r)) <= Tally(log, Docked(p, r))
  {
    if log != [] {
      CoveredIsDocked(log[..|log| - 1], p, r);
    }
  }

  lemma {:induction false} NothingShortAtAll(log: seq<Event>, p: Account)
    requires forall r :: Short(log, Pair(p, r)) == 0
    ensures Short(log, From(p)) == 0
  {
    if log != [] {
      var init, e := log[..|log| - 1], log[|log| - 1];
      forall r ensures Short(init, Pair(p, r)) == 0 {
        assert Short(log, Pair(p, r)) == 0;
      }
      NothingShortAtAll(init, p);
      if e.DepositDeducted? {
        assert Short(log, Pair(p, e.creditor)) == 0;
      }
    }
  }

  /** What everyone pays into the round of r. */
  ghost function Payers(log: seq<Event>, members: set<Account>, r: Account): map<Account, nat> {
    map p | p in members :: Total(log, Pair(p, r))
  }

  /** A recipient receives what the members pay into their round. */
  lemma {:induction false} ReceivedIsSum(log: seq<Event>, members: set<Account>, r: Account)
    requires forall p :: p !in members ==> Total(log, Pair(p, r)) == 0
    ensures Total(log, Into(r)) == Sum(Payers(log, members, r))
  {
    if log == [] {
      NobodyPays(Payers([], members, r));
    } else {
      var init, e := log[..|log| - 1], log[|log| - 1];
      forall p | p !in members ensures Total(init, Pair(p, r)) == 0 {
        assert Total(log, Pair(p, r)) == 0;
      }
      ReceivedIsSum(init, members, r);
      OneMorePart(init, e, members, r);
      assert log == init + [e];
    }
  }

  lemma {:induction false} NobodyPays(m: map<Account, nat>)
    requires forall p :: p in m ==> m[p] == 0
    ensures Sum(m) == 0
    decreases |m|
  {
    if m != map[] {
      var p :| p in m;
      SumRemove(m, p);
      assert (m - {p}).Keys == m.Keys - {p};
      NobodyPays(m - {p});
    }
  }

  /** Each payment into a round has one payer. */
  lemma OnePayer(e: Event, r: Account)
    ensures forall q :: Part(e, Pair(q, r)) ==
              if (e.ContributionMade? && q == e.contributor) || (e.DepositDeducted? && q == e.debtor) then Part(e, Into(r)) else 0
    ensures !e.ContributionMade? && !e.DepositDeducted? ==> Part(e, Into(r)) == 0
  {
  }

  lemma OneMorePart(log: seq<Event>, e: Event, members: set<Account>, r: Account)
    requires forall p :: p !in members ==> Total(log + [e], Pair(p, r)) == 0
    ensures Sum(Payers(log + [e], members, r)) == Sum(Payers(log, members, r)) + Part(e, Into(r))
  {
    hide Sum, Total, Part, Short;
    TotalPush(log, e);
    OnePayer(e, r);
    var sums, sums' := Payers(log, members, r), Payers(log + [e], members, r);
    if e.ContributionMade? || e.DepositDeducted? {
      var p := if e.ContributionMade? then e.contributor else e.debtor;
      if p in members {
        assert sums' == sums[p := sums[p] + Part(e, Into(r))];
        SumUpdate(sums, p, sums[p] + Part(e, Into(r)));
      } else {
        assert Total(log + [e], Pair(p, r)) == 0;
        assert sums' == sums;
      }
    } else {
      assert sums' == sums;
    }
  }

  // ---------- rounds that are over ----------

  /** At most one deposit falls short, and by at least one. */
  lemma {:induction false} ShortAtMost(log: seq<Event>, amount: nat, p: Account, r: Account)
    requires FairAmounts(log, amount)
    ensures var k := Tally(log, Docked(p, r)) - Tally(log, Covered(p, r)); k >= 0 && Short(log, Pair(p, r)) + k <= k * amount
  {
    if log != [] {
      var init, e := log[..|log| - 1], log[|log| - 1];
      assert e in log && log == init + [e];
      ShortAtMost(init, amount, p, r);
      ShortStep(init, e, amount, p, r);
    }
  }

  lemma ShortStep(log: seq<Event>, e: Event, amount: nat, p: Account, r: Account)
    requires FairEvent(e, amount)
    requires var k := Tally(log, Docked(p, r)) - Tally(log, Covered(p, r)); k >= 0 && Short(log, Pair(p, r)) + k <= k * amount
    ensures var k := Tally(log + [e], Docked(p, r)) - Tally(log + [e], Covered(p, r)); k >= 0 && Short(log + [e], Pair(p, r)) + k <= k * amount
  {
    hide Tally, Short, Total;
    Push(log, e);
    TotalPush(log, e);
    var k := Tally(log, Docked(p, r)) - Tally(log, Covered(p, r));
    assert (k + 1) * amount == k * amount + amount;
  }

  /** What p pays into the closed round of r. */
  ghost predicate PaysInto(log: seq<Event>, amount: nat, p: Account, r: Account) {
    && Tally(log, Paid(p, r)) + Tally(log, Covered(p, r)) + Tally(log, Missed(p, r)) <= 1
    && Total(log, Pair(p, r)) == (Tally(log, Paid(p, r)) + Tally(log, Covered(p, r))) * amount + Short(log, Pair(p, r))
    && (Short(log, Pair(p, r)) > 0 ==> Tally(log, Missed(p, r)) == 1 && Short(log, Pair(p, r)) < amount)
  }

  lemma ClosedPays(log: seq<Event>, members: set<Account>, r: Account, amount: nat, p: Account)
    requires Closed(log, members, r) && Fair(log, amount)
    ensures PaysInto(log, amount, p, r)
    ensures p !in members ==> Total(log, Pair(p, r)) == 0
  {
    hide Tally, Total, Short, FairAmounts, Escaped, SelfPaidOut;
    TotalIs(log, amount, Pair(p, r));
    ShortAtMost(log, amount, p, r);
    assert Marks(log, p, r) <= If(p in members);
    assert Tally(log, Docked(p, r)) <= Tally(log, Covered(p, r)) + Tally(log, Missed(p, r));
  }

  /** For every round that is over in a reachable state: its recipient received what the members paid into it, and each
      member paid the agreed amount if they contributed or were covered, and otherwise what was left of a deposit that
      fell short. */
  lemma RoundPays(w0: World, ms: seq<Move>, w: World, id: RoscaId, k: nat)
    requires Reached(w0, ms, w) && w.Has(id) && w.At(id).pending.None? && RoundOver(w.At(id), k)
    ensures var c := w.At(id);
            var x := Published(c.log)[k - 1].recipient;
            && HasTerms(c) && Total(c.log, Into(x)) == Sum(Payers(c.log, c.Members(), x))
            && forall p :: PaysInto(c.log, Terms(c).amount, p, x)
  {
    hide Well, Mirrored, Tally, Published, Closed, Fair, PaysInto, Total, Sum, ScheduleFor;
    var c := w.At(id);
    ReachedFair(w0, ms, w, id);
    OverIsClosed(w.cfg, id, c, w.ledger, k);
    var x := Published(c.log)[k - 1].recipient;
    forall p ensures PaysInto(c.log, Terms(c).amount, p, x) && (p !in c.Members() ==> Total(c.log, Pair(p, x)) == 0) {
      ClosedPays(c.log, c.Members(), x, Terms(c).amount, p);
    }
    ReceivedIsSum(c.log, c.Members(), x);
  }

  lemma ReachedFair(w0: World, ms: seq<Move>, w: World, id: RoscaId)
    requires Reached(w0, ms, w) && w.Has(id)
    ensures Well(w.cfg, id, w.At(id), w.ledger) && HasTerms(w.At(id)) && Fair(w.At(id).log, Terms(w.At(id)).amount)
  {
    hide Well, Mirrored, Fair, FreshRun;
    ReachedSound(w0, ms, w);
    GenesisSound(w0);
    RunFair(w0, ms);
  }

  // ---------- a circle without defaults ----------

  lemma {:induction false} MissedAtAll(log: seq<Event>, p: Account, r: Account)
    ensures Tally(log, Missed(p, r)) <= Tally(log, MissedBy(p))
  {
    if log != [] {
      MissedAtAll(log[..|log| - 1], p, r);
    }
  }

  lemma {:induction false} SumUniform(m: map<Account, nat>, amount: nat)
    requires forall p :: p in m ==> m[p] == amount
    ensures Sum(m) == |m| * amount
    decreases |m|
  {
    if m != map[] {
      var p :| p in m;
      SumRemove(m, p);
      assert (m - {p}).Keys == m.Keys - {p};
      SumUniform(m - {p}, amount);
      assert |m| * amount == (|m| - 1) * amount + amount;
    }
  }

  lemma AllButOne(m: map<Account, nat>, x: Account, amount: nat)
    requires x in m && m[x] == 0 && forall p :: p in m && p != x ==> m[p] == amount
    ensures Sum(m) == (|m| - 1) * amount
  {
    SumRemove(m, x);
    assert (m - {x}).Keys == m.Keys - {x};
    SumUniform(m - {x}, amount);
  }

  /** Nobody defaulted and nobody paid into their own round. */
  ghost predicate Flawless(c: Circle) {
    NobodyPaidSelf(c.log) && forall p :: c.Defaults(p) == Tally(c.log, MissedBy(p)) == 0
  }

  lemma FlawlessMarks(c: Circle, p: Account, x: Account)
    requires Flawless(c) && Closed(c.log, c.Members(), x)
    ensures Tally(c.log, Missed(p, x)) == 0
    ensures Tally(c.log, Paid(p, x)) + Tally(c.log, Covered(p, x)) == If(p in c.Members() && p != x)
  {
    hide Tally, Escaped;
    NobodyEscapesIff(c.log, c.Members(), x);
    MissedAtAll(c.log, p, x);
    assert Tally(c.log, MissedBy(p)) == 0;
    assert Tally(c.log, Paid(x, x)) == 0;
    if p in c.Members() && p != x {
      assert Marks(c.log, p, x) == 1;
    } else {
      assert Marks(c.log, p, x) <= If(p in c.Members());
    }
  }

  lemma FlawlessPair(c: Circle, amount: nat, p: Account, x: Account)
    requires Flawless(c) && Closed(c.log, c.Members(), x) && Fair(c.log, amount)
    ensures Total(c.log, Pair(p, x)) == if p in c.Members() && p != x then amount else 0
  {
    hide Tally, Total, Short, Fair, Flawless, Closed;
    ClosedPays(c.log, c.Members(), x, amount, p);
    FlawlessMarks(c, p, x);
  }

  lemma FlawlessReceives(c: Circle, amount: nat, x: Account)
    requires Flawless(c) && Closed(c.log, c.Members(), x) && Fair(c.log, amount) && x in c.Members()
    ensures Total(c.log, Into(x)) == (|c.Members()| - 1) * amount
  {
    hide Flawless, Closed, Fair, Total, Sum;
    forall p ensures Total(c.log, Pair(p, x)) == if p in c.Members() && p != x then amount else 0 {
      FlawlessPair(c, amount, p, x);
    }
    ReceivedIsSum(c.log, c.Members(), x);
    var m := Payers(c.log, c.Members(), x);
    assert m.Keys == c.Members();
    AllButOne(m, x, amount);
  }

  lemma FlawlessGives(c: Circle, amount: nat, p: Account, n: nat)
    requires Flawless(c) && Fair(c.log, amount) && Tally(c.log, PaidBy(p)) + Tally(c.log, CoveredFor(p)) == n
    ensures Total(c.log, From(p)) == n * amount
  {
    hide Tally, Total, Short;
    TotalIs(c.log, amount, From(p));
    forall r ensures Short(c.log, Pair(p, r)) == 0 {
      MissedAtAll(c.log, p, r);
      CoveredIsDocked(c.log, p, r);
      assert Tally(c.log, Docked(p, r)) <= Tally(c.log, Covered(p, r)) + Tally(c.log, Missed(p, r));
      NothingShort(c.log, p, r);
    }
    NothingShortAtAll(c.log, p);
  }

  // ---------- what a member is left with ----------

  lemma EntryIs(e: Event, id: RoscaId, x: Account)
    requires x.Member?
    ensures Entry(e, id, x) == Part(e, Into(x)) - Part(e, From(x)) + Weight(e, Taken(x)) - Weight(e, Added(x)) + Weight(e, Returned(x))
  {
  }

  /** What the events say about a member: received, minus paid into rounds out of pocket, minus added to the deposit,
      plus what came back of it. */
  lemma {:induction false} NetIs(log: seq<Event>, id: RoscaId, x: Account)
    requires x.Member?
    ensures Net(log, id, x) == Total(log, Into(x)) - Total(log, From(x)) + Tally(log, Taken(x)) - Tally(log, Added(x)) + Tally(log, Returned(x))
  {
    if log != [] {
      hide Entry, Part, Weight;
      NetIs(log[..|log| - 1], id, x);
      EntryIs(log[|log| - 1], id, x);
    }
  }

  /** In every reachable state, for every account holder and circle: what the circle's events moved to and from them is
      what they received minus what they paid in, minus the deposit they still hold. */
  lemma NetOfMember(w0: World, ms: seq<Move>, w: World, id: RoscaId, x: Account)
    requires Reached(w0, ms, w) && w.Has(id) && x.Member?
    ensures var c := w.At(id); Net(c.log, id, x) == Total(c.log, Into(x)) - Total(c.log, From(x)) - c.Deposit(x)
  {
    hide Well, Mirrored, Tally, Total, Net, Solvent;
    ReachedSound(w0, ms, w);
    WellTerms(w.cfg, id, w.At(id), w.ledger);
    NetIs(w.At(id).log, id, x);
  }

  /** The law of a savings circle: when a circle is completed without a default and nobody paid into their own round, every
      member has paid in and received (n - 1) times the agreed amount, and is short of nothing but the deposit they can
      claim. */
  lemma EveryoneGetsTheirShare(w0: World, ms: seq<Move>, w: World, id: RoscaId, p: Account)
    requires Reached(w0, ms, w) && w.At(id).completed && p in w.At(id).Members()
    requires NeverSelfPays(w0, ms, id) && forall q :: w.At(id).Defaults(q) == 0
    ensures HasTerms(w.At(id))
    ensures var c := w.At(id);
            var share := (|c.Members()| - 1) * Terms(c).amount;
            && Total(c.log, Into(p)) == share && Total(c.log, From(p)) == share
            && Net(c.log, id, p) == -(c.Deposit(p) as int)
  {
    hide Well, Tally, Published, Closed, Fair, Total, Net, ScheduleFor, NeverSelfPays, Step, FreshRun, Created;
    var c := w.At(id);
    ReachedFair(w0, ms, w, id);
    OwnRoundClosed(w.cfg, id, c, w.ledger, p);
    SelfPaymentsOverRun(w0, ms, w, id);
    RunAccounting(w0, ms, w, id, p);
    FlawlessReceives(c, Terms(c).amount, p);
    FlawlessGives(c, Terms(c).amount, p, |c.Members()| - 1);
    NetOfMember(w0, ms, w, id, p);
  }

  lemma OwnRoundClosed(cfg: Config, id: RoscaId, c: Circle, l: Ledger, p: Account)
    requires Well(cfg, id, c, l) && c.completed && p in c.Members()
    ensures HasTerms(c) && |Published(c.log)| == |c.Members()| && p.Member?
    ensures Closed(c.log, c.Members(), p)
    ensures forall q :: c.Defaults(q) == Tally(c.log, MissedBy(q))
  {
    hide Well, Running, PendingOk, Finished, Tally, Published, Closed, BooksOk;
    WellCases(cfg, id, c, l);
    StartedBooks(cfg, id, c, l);
    FinishedParts(id, c, l, Published(c.log), p);
    FinishedKeys(id, c, l, Published(c.log));
    ScheduleSize(Published(c.log), c.Members(), Terms(c).frequency);
    hide ScheduleFor;
    var own :| 0 <= own < |Published(c.log)| && Published(c.log)[own].recipient == p;
    OverIsClosed(cfg, id, c, l, own + 1);
  }

  lemma FinishedKeys(id: RoscaId, c: Circle, l: Ledger, rs: seq<RoundInfo>)
    requires Finished(id, c, l, rs)
    ensures KeyHolders(c.Members())
  {
  }
}

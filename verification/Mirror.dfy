/** The indexer's entities mirror the pallet's storage: kept by every call. */
module Mirror {
  import opened Prelude
  import opened Storage
  import opened Rules
  import opened Journal
  import opened Schedule
  import opened Rota
  import opened Accounts
  import opened Circles
  import opened Deadlines
  import opened Membership
  import opened Launch
  import opened Payments
  import opened Chronicle
  import opened Projection

  /** The circle entity and the eligibilities agree with storage. */
  ghost predicate EntityAgrees(ix: Index, c: Circle, started: nat) {
    && ix.rosca.Some?
    && Distinct(ix.rosca.value.active)
    && Elems(ix.rosca.value.active) == c.Members()
    && ix.rosca.value.completed == c.completed
    && ix.rosca.value.currentRecipient == c.claimant
    && ix.rosca.value.currentRoundNumber == started
    && ix.joined.Keys == c.invited && c.Members() <= c.invited
    && (forall p :: p in ix.joined ==> (ix.joined[p] <==> p in c.Members()))
  }

  ghost predicate Mirrored(c: Circle) {
    && c.log != []
    && Orderly(c.log)
    && EntityAgrees(Project(c.log), c, Tally(c.log, RoundStarts))
  }

  // ---------- payments ----------

  /** Only payments to a scheduled recipient were added. */
  ghost predicate PaidInto(log: seq<Event>, log': seq<Event>) {
    && Orderly(log') && log' != []
    && Published(log') == Published(log)
    && Tally(log', RoundStarts) == Tally(log, RoundStarts)
    && Project(log').rosca == Project(log).rosca
    && Project(log').joined == Project(log).joined
  }

  lemma PaymentPush(log: seq<Event>, e: Event)
    requires Orderly(log) && IsPayment(e) && Payee(e) in Recipients(Published(log)) && log != []
    ensures PaidInto(log, log + [e])
  {
    OrderlyPush(log, e);
    ProjectPush(log, e);
    Push(log, e);
    hide Tally, Published, Project, Orderly, FindRound;
  }

  lemma PaidIntoTwice(log: seq<Event>, log1: seq<Event>, log2: seq<Event>)
    requires PaidInto(log, log1) && PaidInto(log1, log2)
    ensures PaidInto(log, log2)
  {
  }

  lemma SettleOnePays(id: RoscaId, d: Details, r: Account, v: View, p: Account)
    requires Orderly(v.c.log) && v.c.log != [] && r in Recipients(Published(v.c.log)) && SettleOne(id, d, r, v, p).Ok?
    ensures PaidInto(v.c.log, SettleOne(id, d, r, v, p).value.c.log)
  {
    hide Tally, Published, Project, Orderly, PaidInto, Transfer;
    PaidNothing(v.c.log);
    var log, held := v.c.log, v.c.Deposit(p);
    if p != r && p !in v.c.contributors {
      if held >= d.amount {
        PaymentPush(log, DepositDeducted(p, r, d.amount, true));
      } else {
        var log1 := if held > 0 then log + [DepositDeducted(p, r, held, false)] else log;
        if held > 0 {
          PaymentPush(log, DepositDeducted(p, r, held, false));
        }
        PaidIntoKeeps(log, log1);
        PaymentPush(log1, ParticipantDefaulted(r, p));
        PaidIntoTwice(log, log1, log1 + [ParticipantDefaulted(r, p)]);
      }
    }
  }

  lemma PaidNothing(log: seq<Event>)
    requires Orderly(log) && log != []
    ensures PaidInto(log, log)
  {
  }

  lemma PaidIntoKeeps(log: seq<Event>, log': seq<Event>)
    requires PaidInto(log, log')
    ensures Orderly(log') && log' != [] && Published(log') == Published(log)
  {
  }

  lemma {:induction false} SettlePays(id: RoscaId, d: Details, r: Account, v: View, ps: seq<Account>)
    requires Orderly(v.c.log) && v.c.log != [] && r in Recipients(Published(v.c.log)) && Settle(id, d, r, v, ps).Ok?
    ensures PaidInto(v.c.log, Settle(id, d, r, v, ps).value.c.log)
  {
    hide Tally, Published, Project, Orderly, PaidInto, SettleOne;
    PaidNothing(v.c.log);
    if ps != [] {
      SettlePays(id, d, r, v, ps[..|ps| - 1]);
      var v1 := Settle(id, d, r, v, ps[..|ps| - 1]).value;
      PaidIntoKeeps(v.c.log, v1.c.log);
      SettleOnePays(id, d, r, v1, ps[|ps| - 1]);
      PaidIntoTwice(v.c.log, v1.c.log, SettleOne(id, d, r, v1, ps[|ps| - 1]).value.c.log);
    }
  }

  lemma PaidMirror(c: Circle, c': Circle)
    requires Mirrored(c) && PaidInto(c.log, c'.log)
    requires c'.Members() == c.Members() && c'.completed == c.completed && c'.claimant == c.claimant && c'.invited == c.invited
    ensures Mirrored(c')
  {
    hide Tally, Published, Project, Orderly;
  }

  // ---------- rounds ----------

  lemma NextRoundMirror(c: Circle, order: seq<Account>, next: u64)
    requires Mirrored(c) && |order| > 0 && Published(c.log) != []
    ensures Mirrored(NextRound(c, order, next))
  {
    var e := NewRoundStarted(order[|order| - 1], next);
    OrderlyPush(c.log, e);
    ProjectPush(c.log, e);
    Push(c.log, e);
    hide Tally, Published, Project, Orderly;
  }

  lemma CompleteMirror(c: Circle)
    requires Mirrored(c)
    ensures Mirrored(Complete(c))
  {
    OrderlyPush(c.log, RoscaComplete);
    ProjectPush(c.log, RoscaComplete);
    Push(c.log, RoscaComplete);
    hide Tally, Published, Project, Orderly;
  }

  lemma ClaimantListed(id: RoscaId, c: Circle, l: Ledger, rs: seq<RoundInfo>, r: nat)
    requires Running(id, c, l, rs, r)
    ensures c.claimant.Some? && c.claimant.value in Recipients(Published(c.log)) && c.order.Some? && |c.order.value| > 0
  {
    ClaimantIsScheduled(c, Terms(c).frequency, rs, r);
    assert Recipients(rs)[if r <= |rs| then r - 1 else 0] == c.claimant.value;
  }

  lemma CloseRoundMirror(id: RoscaId, v: View, rs: seq<RoundInfo>, r: nat)
    requires Running(id, v.c, v.l, rs, r) && r <= |rs| && Mirrored(v.c)
    ensures CloseRound(id, v).Ok? && Mirrored(CloseRound(id, v).value.c)
  {
    hide Running, Tally, Published, Project, Orderly, PaidInto, Settle, EntityAgrees, Ending, DueAt, NextRound;
    ProcessEndsRound(id, v, rs, r);
    ClaimantListed(id, v.c, v.l, rs, r);
    RunningTerms(id, v.c, v.l, rs, r);
    var v1 := ProcessDefaulters(id, v).value;
    SettlePays(id, Terms(v.c), v.c.claimant.value, v, v.c.order.value);
    PaidMirror(v.c, v1.c);
    EndingAdvancesTo(id, v1.c, v1.l, rs, r);
    NextRoundMirror(v1.c, v1.c.order.value, DueAt(rs, Terms(v1.c).frequency, r + 1));
  }

  lemma EndingAdvancesTo(id: RoscaId, c: Circle, l: Ledger, rs: seq<RoundInfo>, r: nat)
    requires Ending(id, c, l, rs, r)
    ensures HasTerms(c) && c.order.Some? && |c.order.value| > 0 && |rs| > 0 && 1 <= r <= |rs|
    ensures DueAt(rs, Terms(c).frequency, r + 1) <= U64_MAX
    ensures AdvanceRound(c) == Ok(NextRound(c, c.order.value, DueAt(rs, Terms(c).frequency, r + 1))) && Published(c.log) == rs
  {
    hide DueAt, SavingsOk, DefaultsOk, BooksOk, Tally, Published, ScheduleFor;
    AdvanceOnTrack(c, Terms(c).frequency, rs, r);
  }

  lemma {:induction false} CloseRoundsMirror(id: RoscaId, v: View, m: nat, rs: seq<RoundInfo>, r: nat)
    requires Running(id, v.c, v.l, rs, r) && r + m <= |rs| + 1 && Mirrored(v.c)
    ensures CloseRounds(id, v, m).Ok? && Mirrored(CloseRounds(id, v, m).value.c)
    decreases m
  {
    hide Running, CloseRound, Mirrored;
    if m > 0 {
      CloseRoundMirror(id, v, rs, r);
      CloseRoundRuns(id, v, rs, r);
      CloseRoundsMirror(id, CloseRound(id, v).value, m - 1, rs, r + 1);
    }
  }

  lemma ManualEndMirror(id: RoscaId, v: View, now: u64, rs: seq<RoundInfo>, r: nat)
    requires Running(id, v.c, v.l, rs, r) && 1 <= r <= |rs| && Mirrored(v.c)
    requires v.c.finalPayBy.Some? && now > v.c.finalPayBy.value
    ensures ManuallyEnd(id, v, now).Ok? && Mirrored(ManuallyEnd(id, v, now).value.c)
  {
    hide Running, CloseRounds, Mirrored, ManuallyEnd, Finished;
    ManualEndSucceeds(id, v, now, rs, r);
    CloseRoundsMirror(id, v, |rs| + 1 - r, rs, r);
    CompleteMirror(CloseRounds(id, v, |rs| + 1 - r).value.c);
  }

  lemma PayMirror(id: RoscaId, v: View, rs: seq<RoundInfo>, r: nat, signer: Account)
    requires Running(id, v.c, v.l, rs, r) && 1 <= r <= |rs| && |rs| >= 2 && Mirrored(v.c)
    requires signer in v.c.Members() && signer !in v.c.contributors && v.c.finalPayBy.Some?
    requires Pay(v, Terms(v.c), v.c.finalPayBy.value, signer).Ok?
    ensures Mirrored(Pay(v, Terms(v.c), v.c.finalPayBy.value, signer).value.c)
  {
    hide Running, Tally, Published, Project, Orderly, EntityAgrees, Pay, Ending, FinishRound, Transfer, DueAt, NextRound, PaidInto, Complete;
    RunningTerms(id, v.c, v.l, rs, r);
    ClaimantListed(id, v.c, v.l, rs, r);
    PaymentKeepsSolvent(id, v.c, v.l, rs, r, signer);
    RecordedRuns(id, v.c, v.l, v.l, rs, r, signer);
    PayIs(id, v, rs, r, signer);
    RecordedMirror(v.c, signer);
    var c1 := Recorded(v.c, signer);
    if |v.c.contributors| + 1 == |rs| - 1 {
      RecordedKeeps(v.c, signer);
      EndingFinishesTo(id, c1, v.l, rs, r);
      EndingAdvancesTo(id, c1, v.l, rs, r);
      if r == |rs| {
        CompleteMirror(c1);
      } else {
        NextRoundMirror(c1, c1.order.value, DueAt(rs, Terms(c1).frequency, r + 1));
      }
    }
  }

  lemma EndingFinishesTo(id: RoscaId, c: Circle, l: Ledger, rs: seq<RoundInfo>, r: nat)
    requires Ending(id, c, l, rs, r)
    ensures HasTerms(c) && c.order.Some? && |c.order.value| > 0 && |rs| > 0 && 1 <= r <= |rs|
    ensures c.nextPayBy.Some? && c.finalPayBy.Some? && DueAt(rs, Terms(c).frequency, r + 1) <= U64_MAX
    ensures FinishRound(c, Terms(c), c.order.value, c.nextPayBy.value, c.finalPayBy.value)
         == Ok(if r == |rs| then Complete(c) else NextRound(c, c.order.value, DueAt(rs, Terms(c).frequency, r + 1)))
  {
    hide DueAt, SavingsOk, DefaultsOk, BooksOk, Tally, Published, ScheduleFor, FinishRound;
    FinishOnTrack(c, Terms(c), rs, r);
  }

  lemma RecordedMirror(c: Circle, signer: Account)
    requires Mirrored(c) && HasTerms(c) && c.claimant.Some? && c.contributionCount < U32_MAX
    requires c.claimant.value in Recipients(Published(c.log))
    ensures Mirrored(Recorded(c, signer))
  {
    hide Tally, Published, Project, Orderly, EntityAgrees, PaidInto;
    PaymentPush(c.log, ContributionMade(signer, c.claimant.value, Terms(c).amount));
    PaidMirror(c, Recorded(c, signer));
  }

  lemma ContributeMirror(id: RoscaId, v: View, now: u64, signer: Account, rs: seq<RoundInfo>, r: nat)
    requires Running(id, v.c, v.l, rs, r) && 1 <= r <= |rs| && Mirrored(v.c)
    requires ContributeToRosca(id, v, now, signer).Ok?
    ensures Mirrored(ContributeToRosca(id, v, now, signer).value.c)
  {
    hide Running, CloseRounds, Pay, ContributeToRosca, Mirrored, Complete;
    ContributeIs(id, v, now, signer, rs, r);
    AfterMissedRuns(id, v, now, rs, r);
    var w, u := Window(rs, r, now), AfterMissed(id, v, now, rs, r);
    CloseRoundsMirror(id, v, w - r, rs, r);
    RunningTerms(id, v.c, v.l, rs, r);
    RunningTerms(id, u.c, u.l, rs, w);
    if w > |rs| {
      CompleteMirror(u.c);
    } else {
      TwoMembers(id, v.c, v.l, rs, r, signer);
      PayMirror(id, u, rs, w, signer);
    }
  }

  // ---------- membership and deposits ----------

  lemma CreateMirror(cfg: Config, now: u64, signer: Account, randomOrder: bool, invited: seq<Account>, threshold: u32,
                     amount: u32, asset: Asset, frequency: u64, startBy: u64, position: Option<u32>)
    requires CreateRosca(cfg, EMPTY, now, signer, randomOrder, invited, threshold, amount, asset, frequency, startBy, position).Ok?
    ensures Mirrored(CreateRosca(cfg, EMPTY, now, signer, randomOrder, invited, threshold, amount, asset, frequency, startBy, position).value)
  {
    hide SortDedup;
    var c := CreateRosca(cfg, EMPTY, now, signer, randomOrder, invited, threshold, amount, asset, frequency, startBy, position).value;
    var e := c.log[0];
    var g := SortDedup(invited);
    assert c.log == [] + [e] && e.RoscaCreated? && e.eligible == [signer] + g && e.creator == signer;
    assert c.invited == {signer} + (set a | a in g) && c.participants.Keys == {signer};
    GuestList(invited, signer);
    CreatedMirror(c, e);
  }

  lemma CreatedMirror(c: Circle, e: Event)
    requires e.RoscaCreated? && c.log == [] + [e] && c.invited == Elems(e.eligible) && c.Members() == {e.creator}
    requires !c.completed && c.claimant.None? && e.eligible != [] && e.eligible[0] == e.creator && Distinct(e.eligible)
    ensures Mirrored(c)
  {
    OrderlyPush([], e);
    ProjectPush([], e);
    Push([], e);
    assert Project([]) == NO_INDEX;
    hide Tally, Published, Orderly, Project;
    assert Elems([e.creator]) == {e.creator};
  }

  lemma JoinMirror(c: Circle, now: u64, signer: Account, position: Option<u32>)
    requires Mirrored(c) && JoinRosca(c, now, signer, position).Ok?
    ensures Mirrored(JoinRosca(c, now, signer, position).value)
  {
    hide Tally, Published, Project, Orderly, JoinRosca, PickSlot;
    JoinIs(c, now, signer, position);
    JoinedIsEligible(c.log);
    ActiveIsPresent(c.log);
    var c', e := JoinRosca(c, now, signer, position).value, JoinedRosca(signer);
    OrderlyPush(c.log, e);
    ProjectPush(c.log, e);
    Push(c.log, e);
    var active := Project(c.log).rosca.value.active;
    assert signer !in Elems(active);
    assert Elems([signer] + active) == Elems(active) + {signer} == c'.Members();
  }

  lemma LeftMirror(c: Circle, c': Circle, signer: Account)
    requires Mirrored(c) && signer in c.Members() && signer in c.invited
    requires c'.log == c.log + [LeftRosca(signer)] && c'.Members() == c.Members() - {signer}
    requires c'.invited == c.invited && c'.completed == c.completed && c'.claimant == c.claimant
    ensures Mirrored(c')
  {
    hide Tally, Published, Project, Orderly;
    ActiveIsPresent(c.log);
    var e := LeftRosca(signer);
    OrderlyPush(c.log, e);
    ProjectPush(c.log, e);
    Push(c.log, e);
    WithoutFacts(Project(c.log).rosca.value.active, signer);
  }

  lemma DepositMirror(c: Circle, c': Circle, e: Event)
    requires Mirrored(c) && (e.SecurityDepositContribution? || e.SecurityDepositClaimed?) && MayFollow(c.log, e)
    requires c'.log == c.log + [e] && c'.Members() == c.Members()
    requires c'.invited == c.invited && c'.completed == c.completed && c'.claimant == c.claimant
    ensures Mirrored(c')
  {
    hide Tally, Published, Project, Orderly, MayFollow, Apply;
    OrderlyPush(c.log, e);
    ProjectPush(c.log, e);
    Push(c.log, e);
    DepositKeeps(Project(c.log), e);
  }

  /** Deposits change nothing of an entity but its total. */
  lemma DepositKeeps(ix: Index, e: Event)
    requires e.SecurityDepositContribution? || e.SecurityDepositClaimed?
    ensures Apply(ix, e).joined == ix.joined && Apply(ix, e).rosca.Some? == ix.rosca.Some?
    ensures ix.rosca.Some? ==> Apply(ix, e).rosca.value == ix.rosca.value.(totalDeposits := Apply(ix, e).rosca.value.totalDeposits)
  {
  }

  lemma ClaimMayFollow(c: Circle, p: Account)
    requires SavingsOk(c) && c.log != []
    ensures MayFollow(c.log, SecurityDepositClaimed(p, c.Deposit(p)))
  {
    hide Tally;
  }

  lemma AddMayFollow(c: Circle, p: Account, amount: nat)
    requires Mirrored(c) && p in c.Members()
    ensures MayFollow(c.log, SecurityDepositContribution(p, amount))
  {
    JoinedIsEligible(c.log);
    hide Tally, Project, Orderly;
  }

  /** The eligibilities never change after the creation. */
  lemma {:induction false} JoinedIsEligible(log: seq<Event>)
    requires Orderly(log)
    ensures Project(log).joined.Keys == Eligible(log)
  {
    if log != [] {
      var init, e := log[..|log| - 1], log[|log| - 1];
      JoinedIsEligible(init);
      assert log == init + [e];
      ProjectPush(init, e);
      hide Project, Tally, FindRound, Published;
      if init == [] {
        assert Project(init).joined.Keys == {};
        assert Project(log).joined.Keys == Elems(e.eligible);
      } else {
        assert log[0] == init[0];
      }
    }
  }

  /** The active participants are those who have joined and not left. */
  lemma {:induction false} ActiveIsPresent(log: seq<Event>)
    requires Orderly(log) && log != []
    ensures Project(log).rosca.Some? && Elems(Project(log).rosca.value.active) == Present(log) <= Eligible(log)
    ensures Distinct(Project(log).rosca.value.active)
  {
    var init, e := log[..|log| - 1], log[|log| - 1];
    assert log == init + [e];
    ProjectPush(init, e);
    JoinedIsEligible(init);
    if init == [] {
      assert Elems([e.creator]) == {e.creator};
      assert Eligible(log) == Elems(e.eligible);
    } else {
      ActiveIsPresent(init);
      ActiveStep(init, e);
    }
  }

  lemma ActiveStep(log: seq<Event>, e: Event)
    requires MayFollow(log, e) && log != [] && Project(log).joined.Keys == Eligible(log)
    requires Project(log).rosca.Some? && Elems(Project(log).rosca.value.active) == Present(log) <= Eligible(log)
    requires Distinct(Project(log).rosca.value.active)
    ensures Project(log + [e]).rosca.Some? && Elems(Project(log + [e]).rosca.value.active) == Present(log + [e]) <= Eligible(log + [e])
    ensures Distinct(Project(log + [e]).rosca.value.active)
  {
    hide Tally, Published, Project, FindRound, Held;
    ProjectPush(log, e);
    assert (log + [e])[..|log|] == log;
    assert Eligible(log + [e]) == Eligible(log);
    hide Eligible;
    var active := Project(log).rosca.value.active;
    if e.JoinedRosca? {
      assert e.joiner !in active;
      assert Elems([e.joiner] + active) == Elems(active) + {e.joiner};
    } else if e.LeftRosca? {
      WithoutFacts(active, e.leaver);
    }
  }

  lemma LeaveMirror(cfg: Config, id: RoscaId, v: View, signer: Account)
    requires PendingOk(cfg, id, v.c, v.l) && Mirrored(v.c) && LeaveRosca(id, v, signer).Ok?
    ensures Mirrored(LeaveRosca(id, v, signer).value.c)
  {
    hide Quiet, SavingsOk, DefaultsOk, Sum, Tally, Published, Seated, Ledger.Balance, Moved, Solvent, LeaveRosca, Mirrored;
    LeaveIs(cfg, id, v, signer);
    var c, u, held := v.c, LeaveRosca(id, v, signer).value, v.c.Deposit(signer);
    if held == 0 {
      LeftMirror(c, u.c, signer);
    } else {
      var e := SecurityDepositClaimed(signer, held);
      var mid := c.(deposits := c.deposits - {signer}, log := c.log + [e]);
      ClaimMayFollow(c, signer);
      DepositMirror(c, mid, e);
      LeftMirror(mid, u.c, signer);
    }
  }

  lemma StartMirror(cfg: Config, id: RoscaId, c: Circle, l: Ledger, now: u64, signer: Account, byte: nat)
    requires PendingOk(cfg, id, c, l) && Mirrored(c) && StartRosca(cfg, c, now, signer, byte).Ok?
    ensures Mirrored(StartRosca(cfg, c, now, signer, byte).value)
  {
    hide SavingsOk, DefaultsOk, Sum, Tally, Published, Seating, Ledger.Balance, Solvent, StartRosca, Mirrored, GenerateRounds,
      MayStart, StartOrder, ScheduleFor, Open;
    StartIs(cfg, id, c, l, now, signer, byte);
    OrderOfLists(cfg, c, byte);
    var order, f := OrderOf(c, byte), Terms(c).frequency;
    GeneratedSchedule(cfg, order, now, f);
    var rs := GenerateRounds(cfg, order, now, f).value;
    LaunchedMirror(c, now, signer, order, rs, f);
  }

  lemma LaunchedMirror(c: Circle, now: u64, signer: Account, order: seq<Account>, rs: seq<RoundInfo>, f: pos64)
    requires Mirrored(c) && HasTerms(c) && |order| == |rs| > 0 && ScheduleFor(rs, Elems(order), f)
    requires Published(c.log) == [] && Tally(c.log, RoundStarts) == 0 && rs[0].cutoff > 0
    ensures Mirrored(Launched(c, now, signer, order, rs))
  {
    var e := RoscaStarted(signer, rs, order[|order| - 1], rs[0].cutoff);
    OrderlyPush(c.log, e);
    ProjectPush(c.log, e);
    Push(c.log, e);
    hide Tally, Published, Project, Orderly, ScheduleFor;
  }
}

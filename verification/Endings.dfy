/** How rounds and circles end, and which calls can fail where they should not. */
module Endings {
  import opened Prelude
  import opened Storage
  import opened Rules
  import opened Journal
  import opened Schedule
  import opened Rota
  import opened Accounts
  import opened Circles
  import opened Deadlines
  import opened Membership
  import opened Launch
  import opened Payments
  import opened Ledgers
  import opened Projection
  import opened Mirror
  import opened Accounting
  import opened Runs
  import opened Agreement
  import opened Theorems
  import opened IndexerTheorems

  // ---------- the last round announced ----------

  /** What a finished circle keeps of its last round. */
  lemma FinishedRound(id: RoscaId, c: Circle, l: Ledger, rs: seq<RoundInfo>)
    requires Finished(id, c, l, rs)
    ensures |rs| > 0 && c.nextPayBy.Some? && c.finalPayBy.Some?
    ensures var k := Tally(c.log, RoundStarts);
            if c.nextPayBy.value <= c.finalPayBy.value then k == |rs| && c.claimant == Some(rs[|rs| - 1].recipient)
            else k == |rs| + 1 && c.claimant == Some(rs[0].recipient)
  {
    hide SavingsOk, Solvent, DefaultsOk, BooksOk, Tally, OrderAt;
    ClaimantIsScheduled(c, Terms(c).frequency, rs, Tally(c.log, RoundStarts));
  }

  /** In every reachable completed circle the stored next deadline tells how it ended. Not past the final deadline: the
      last contribution ended it, and pallet and indexer stay at round n with the last recipient. Past it: they show
      round n + 1, which does not exist, with the first recipient again. */
  lemma HowItEnded(w0: World, ms: seq<Move>, w: World, id: RoscaId)
    requires Reached(w0, ms, w) && w.At(id).completed
    ensures var c, rs := w.At(id), Published(w.At(id).log);
            && |rs| > 0 && c.nextPayBy.Some? && c.finalPayBy.Some? && Project(c.log).rosca.Some?
            && var inTime, x := c.nextPayBy.value <= c.finalPayBy.value, Project(c.log).rosca.value;
               && (x.currentRoundNumber == |rs| <==> inTime)
               && (x.currentRoundNumber == |rs| + 1 <==> !inTime)
               && x.currentRecipient == c.claimant == Some(rs[if inTime then |rs| - 1 else 0].recipient)
  {
    hide Well, Running, PendingOk, Finished, RoundsAgree, Project, Tally, Published;
    ReachedSound(w0, ms, w);
    var c := w.At(id);
    WellCases(w.cfg, id, c, w.ledger);
    FinishedRound(id, c, w.ledger, Published(c.log));
    IndexerAgrees(w0, ms, w, id);
  }

  /** The condition before the call: the move that completes a circle leaves it at round n if and only if it comes
      before the final deadline. */
  lemma CompletedInTimeIff(w: World, m: Move, id: RoscaId)
    requires Sound(w) && Fresh(w, m) && w.At(id).active.Some? && Step(w, m).At(id).completed
    ensures m.Do? && m.call.id == id && (m.call.Contribute? || m.call.ManualEnd?)
    ensures w.At(id).finalPayBy.Some?
    ensures var c' := Step(w, m).At(id);
            Tally(c'.log, RoundStarts) == |Published(c'.log)| <==> w.now < w.At(id).finalPayBy.value
  {
    hide Well, Running, PendingOk, Finished, CallOn, CreateRosca, Transfer, Tally, Published, GoodStep;
    var c, w' := w.At(id), Step(w, m);
    WellCases(w.cfg, id, c, w.ledger);
    assert m.Do? && m.call.id == id;
    DoSound(w, m.signer, m.call);
    WellCases(w.cfg, id, w'.At(id), w'.ledger);
    FinishedRound(id, w'.At(id), w'.ledger, Published(w'.At(id).log));
    var v := View(c, w.ledger);
    OnlyTwoComplete(w.cfg, w.now, v, m.signer, m.call);
    CompletionTime(w.cfg, w.now, v, m.signer, m.call, Published(c.log), Tally(c.log, RoundStarts));
  }

  lemma OnlyTwoComplete(cfg: Config, now: u64, v: View, signer: Account, call: Call)
    requires CallOn(cfg, now, v, signer, call).Ok? && v.c.active.Some? && !v.c.completed && CallOn(cfg, now, v, signer, call).value.c.completed
    ensures call.Contribute? || call.ManualEnd?
  {
    hide ContributeToRosca, ManuallyEnd, Transfer;
  }

  lemma CompletionTime(cfg: Config, now: u64, v: View, signer: Account, call: Call, rs: seq<RoundInfo>, r: nat)
    requires Running(call.id, v.c, v.l, rs, r) && 1 <= r <= |rs| && (call.Contribute? || call.ManualEnd?)
    requires CallOn(cfg, now, v, signer, call).Ok? && CallOn(cfg, now, v, signer, call).value.c.completed
    ensures v.c.finalPayBy.Some?
    ensures var c' := CallOn(cfg, now, v, signer, call).value.c;
            && c'.nextPayBy.Some? && c'.finalPayBy == v.c.finalPayBy
            && (c'.nextPayBy.value <= c'.finalPayBy.value <==> now < v.c.finalPayBy.value)
  {
    hide Running, CloseRounds, Pay, ContributeToRosca, ManuallyEnd, AfterMissed, Finished;
    RunningDue(call.id, v.c, v.l, rs, r);
    RunningSchedule(call.id, v.c, v.l, rs, r);
    if call.ManualEnd? {
      EndNeedsFinal(call.id, v, now);
      ManualEndSucceeds(call.id, v, now, rs, r);
      CloseRoundsRun(call.id, v, |rs| + 1 - r, rs, r);
      CloseRoundsKeep(call.id, v, |rs| + 1 - r);
      var u := CloseRounds(call.id, v, |rs| + 1 - r).value;
      RunningDue(call.id, u.c, u.l, rs, |rs| + 1);
    } else {
      ContributionTime(call.id, now, v, signer, rs, r);
    }
  }

  lemma ContributionTime(id: RoscaId, now: u64, v: View, signer: Account, rs: seq<RoundInfo>, r: nat)
    requires Running(id, v.c, v.l, rs, r) && 1 <= r <= |rs| && v.c.finalPayBy == Some(rs[|rs| - 1].cutoff)
    requires ContributeToRosca(id, v, now, signer).Ok? && ContributeToRosca(id, v, now, signer).value.c.completed
    ensures var c' := ContributeToRosca(id, v, now, signer).value.c;
            && c'.nextPayBy.Some? && c'.finalPayBy == v.c.finalPayBy
            && (c'.nextPayBy.value <= c'.finalPayBy.value <==> now < v.c.finalPayBy.value)
  {
    hide Running, CloseRounds, Pay, ContributeToRosca, AfterMissed, Window;
    ContributeIs(id, v, now, signer, rs, r);
    AfterMissedRuns(id, v, now, rs, r);
    var k, u := Window(rs, r, now), AfterMissed(id, v, now, rs, r);
    RunningDue(id, u.c, u.l, rs, k);
    if k > |rs| {
      var i := |rs| - 1;
      assert rs[i].cutoff <= now;
    } else {
      NotYetComplete(id, u.c, u.l, rs, k);
      PayCompletes(u, v.c.active.value, v.c.finalPayBy.value, signer);
    }
  }

  lemma NotYetComplete(id: RoscaId, c: Circle, l: Ledger, rs: seq<RoundInfo>, r: nat)
    requires Running(id, c, l, rs, r)
    ensures !c.completed
  {
  }

  lemma PayCompletes(v: View, d: Details, final: u64, signer: Account)
    requires Pay(v, d, final, signer).Ok? && !v.c.completed && Pay(v, d, final, signer).value.c.completed
    ensures var c' := Pay(v, d, final, signer).value.c; c'.nextPayBy == v.c.nextPayBy && c'.finalPayBy == v.c.finalPayBy
  {
    hide Transfer, ClearPrefix;
  }

  // ---------- what a completed circle keeps ----------

  /** What is stored about the last round once the circle is complete: after an end in time the n - 1 who paid into it,
      otherwise nobody. */
  ghost predicate LastContributors(c: Circle, rs: seq<RoundInfo>, inTime: bool) {
    && c.contributionCount == |c.contributors|
    && if inTime then
         && rs != [] && |c.contributors| == |rs| - 1
         && forall p :: p in c.contributors <==> Tally(c.log, Paid(p, rs[|rs| - 1].recipient)) > 0
       else c.contributors == {}
  }

  /** The move that completes a circle before the final deadline leaves the contributors of the last round in storage. */
  lemma CompletionStores(w: World, m: Move, id: RoscaId)
    requires Sound(w) && Fresh(w, m) && w.At(id).active.Some? && Step(w, m).At(id).completed
    ensures w.At(id).finalPayBy.Some?
    ensures LastContributors(Step(w, m).At(id), Published(w.At(id).log), w.now < w.At(id).finalPayBy.value)
  {
    hide Well, Running, PendingOk, Finished, CallOn, CreateRosca, Transfer, Tally, Published, LastContributors;
    var c := w.At(id);
    WellCases(w.cfg, id, c, w.ledger);
    assert m.Do? && m.call.id == id;
    var v, rs, r := View(c, w.ledger), Published(c.log), Tally(c.log, RoundStarts);
    OnlyTwoComplete(w.cfg, w.now, v, m.signer, m.call);
    CompletionLeaves(w.cfg, w.now, v, m.signer, m.call, rs, r);
  }

  lemma CompletionLeaves(cfg: Config, now: u64, v: View, signer: Account, call: Call, rs: seq<RoundInfo>, r: nat)
    requires Running(call.id, v.c, v.l, rs, r) && 1 <= r <= |rs| && (call.Contribute? || call.ManualEnd?)
    requires CallOn(cfg, now, v, signer, call).Ok? && CallOn(cfg, now, v, signer, call).value.c.completed
    ensures v.c.finalPayBy.Some?
    ensures LastContributors(CallOn(cfg, now, v, signer, call).value.c, rs, now < v.c.finalPayBy.value)
  {
    hide Running, ContributeToRosca, ManuallyEnd, LastContributors;
    if call.ManualEnd? {
      EndLeavesNone(call.id, v, now, rs, r);
    } else {
      ContributionLeaves(call.id, now, v, signer, rs, r);
    }
  }

  lemma EndLeavesNone(id: RoscaId, v: View, now: u64, rs: seq<RoundInfo>, r: nat)
    requires Running(id, v.c, v.l, rs, r) && 1 <= r <= |rs| && ManuallyEnd(id, v, now).Ok?
    ensures v.c.finalPayBy.Some? && now > v.c.finalPayBy.value
    ensures LastContributors(ManuallyEnd(id, v, now).value.c, rs, false)
  {
    hide Running, CloseRounds, ManuallyEnd, Finished;
    RunningDue(id, v.c, v.l, rs, r);
    EndNeedsFinal(id, v, now);
    ManualEndSucceeds(id, v, now, rs, r);
    CloseRoundsRun(id, v, |rs| + 1 - r, rs, r);
    CloseRoundsEmpty(id, v, |rs| + 1 - r, rs, r);
    var u := CloseRounds(id, v, |rs| + 1 - r).value;
    CountsContributors(id, u.c, u.l, rs, |rs| + 1);
  }

  lemma CountsContributors(id: RoscaId, c: Circle, l: Ledger, rs: seq<RoundInfo>, r: nat)
    requires Running(id, c, l, rs, r)
    ensures c.contributionCount == |c.contributors|
  {
  }

  lemma ContributionLeaves(id: RoscaId, now: u64, v: View, signer: Account, rs: seq<RoundInfo>, r: nat)
    requires Running(id, v.c, v.l, rs, r) && 1 <= r <= |rs|
    requires ContributeToRosca(id, v, now, signer).Ok? && ContributeToRosca(id, v, now, signer).value.c.completed
    ensures v.c.finalPayBy.Some?
    ensures LastContributors(ContributeToRosca(id, v, now, signer).value.c, rs, now < v.c.finalPayBy.value)
  {
    hide Running, CloseRounds, Pay, ContributeToRosca, AfterMissed, Window, LastContributors;
    RunningSchedule(id, v.c, v.l, rs, r);
    RunningDue(id, v.c, v.l, rs, r);
    ContributeIs(id, v, now, signer, rs, r);
    AfterMissedRuns(id, v, now, rs, r);
    TwoMembers(id, v.c, v.l, rs, r, signer);
    var k, u := Window(rs, r, now), AfterMissed(id, v, now, rs, r);
    if k > |rs| {
      var i := |rs| - 1;
      assert rs[i].cutoff <= now;
      CountsContributors(id, u.c, u.l, rs, k);
      NobodyLeft(u.c, rs);
    } else {
      RunningTerms(id, u.c, u.l, rs, k);
      PaymentLeaves(id, u, rs, k, signer);
      assert now < rs[|rs| - 1].cutoff;
    }
  }

  lemma NobodyLeft(c: Circle, rs: seq<RoundInfo>)
    requires c.contributionCount == |c.contributors| && c.contributors == {}
    ensures LastContributors(Complete(c), rs, false)
  {
  }

  lemma PaymentLeaves(id: RoscaId, v: View, rs: seq<RoundInfo>, k: nat, signer: Account)
    requires Running(id, v.c, v.l, rs, k) && 1 <= k <= |rs| && |rs| >= 2 && signer in v.c.Members() && signer !in v.c.contributors
    requires v.c.finalPayBy.Some?
    requires Pay(v, Terms(v.c), v.c.finalPayBy.value, signer).Ok? && Pay(v, Terms(v.c), v.c.finalPayBy.value, signer).value.c.completed
    ensures k == |rs| && LastContributors(Pay(v, Terms(v.c), v.c.finalPayBy.value, signer).value.c, rs, true)
  {
    hide Pay, FinishRound, Transfer, Positioned, Collecting, SavingsOk, DefaultsOk, BooksOk, Solvent, Tally, Published, LastContributors;
    var d := Terms(v.c);
    RecordedPosition(v.c, d.frequency, rs, k, signer);
    RecordedBooks(v.c, d.frequency, rs, k, signer);
    PayIs(id, v, rs, k, signer);
    var c1 := Recorded(v.c, signer);
    CountsContributors(id, v.c, v.l, rs, k);
    RunningOrder(id, v.c, v.l, rs, k);
    FinishOnTrack(c1, d, rs, k);
    CompleteLists(c1, v.c.Members(), rs);
  }

  lemma CompleteLists(c: Circle, members: set<Account>, rs: seq<RoundInfo>)
    requires rs != [] && BooksOk(c.log, members, c.contributors, rs, |rs|) && c.contributionCount == |c.contributors| == |rs| - 1
    ensures LastContributors(Complete(c), rs, true)
  {
    hide Tally, Published;
    Push(c.log, RoscaComplete);
    assert RoundState(c.log, members, c.contributors, rs[|rs| - 1].recipient, |rs|, |rs|);
  }

  // ---------- rounds that leave somebody out ----------

  /** For every round that is over in a reachable state: everybody else paid, was covered or defaulted exactly once if
      and only if the recipient's own contribution was not one of the n - 1 that ended it; otherwise exactly one member
      is left out. */
  lemma EverybodyAccountedIff(w0: World, ms: seq<Move>, w: World, id: RoscaId, k: nat)
    requires Reached(w0, ms, w) && w.Has(id) && w.At(id).pending.None? && RoundOver(w.At(id), k)
    ensures var c := w.At(id);
            var x := Published(c.log)[k - 1].recipient;
            && ((forall p :: p in c.Members() && p != x ==> Marks(c.log, p, x) == 1) <==> !SelfPaidOut(c.log, c.Members(), x))
            && |Escaped(c.log, c.Members(), x)| == If(SelfPaidOut(c.log, c.Members(), x))
  {
    hide Well, Mirrored, Tally, Published, Escaped, Marks, SelfPaidOut, ScheduleFor;
    ReachedSound(w0, ms, w);
    var c := w.At(id);
    OverIsClosed(w.cfg, id, c, w.ledger, k);
    NobodyEscapesIff(c.log, c.Members(), Published(c.log)[k - 1].recipient);
  }

  // ---------- contributions that are refused ----------

  /** The signer owes the round that is running at `now` and can pay it. */
  ghost predicate OwesAndCanPay(id: RoscaId, v: View, now: u64, signer: Account, rs: seq<RoundInfo>, r: nat) {
    && 1 <= r <= |rs| && HasTerms(v.c)
    && var k := Window(rs, r, now);
       && k <= |rs| && signer in v.c.Members() && rs[k - 1].recipient != signer
       && (k == r ==> signer !in v.c.contributors)
       && AfterMissed(id, v, now, rs, r).l.Balance(Terms(v.c).asset, signer) >= Terms(v.c).amount
  }

  /** The checks look at the stored round. So a member who owes the round running now, and can pay it, is accepted if
      and only if the stored round is that round, or the member neither received nor contributed in the stored one. */
  lemma DebtorAcceptedIff(w0: World, ms: seq<Move>, w: World, id: RoscaId, signer: Account, rs: seq<RoundInfo>, r: nat)
    requires Reached(w0, ms, w) && w.At(id).active.Some? && rs == Published(w.At(id).log) && r == Tally(w.At(id).log, RoundStarts)
    requires OwesAndCanPay(id, View(w.At(id), w.ledger), w.now, signer, rs, r)
    ensures ContributeToRosca(id, View(w.At(id), w.ledger), w.now, signer).Ok? <==>
              Window(rs, r, w.now) == r || (rs[r - 1].recipient != signer && signer !in w.At(id).contributors)
  {
    hide Well, Mirrored, Running, PendingOk, Finished, ContributeToRosca, OwesAndCanPay, Tally, Published, Window;
    ReachedSound(w0, ms, w);
    WellCases(w.cfg, id, w.At(id), w.ledger);
    DebtorOfRunning(id, View(w.At(id), w.ledger), w.now, signer, rs, r);
  }

  lemma DebtorOfRunning(id: RoscaId, v: View, now: u64, signer: Account, rs: seq<RoundInfo>, r: nat)
    requires Running(id, v.c, v.l, rs, r) && OwesAndCanPay(id, v, now, signer, rs, r)
    ensures ContributeToRosca(id, v, now, signer).Ok? <==>
              Window(rs, r, now) == r || (rs[r - 1].recipient != signer && signer !in v.c.contributors)
  {
    hide Running, ContributeToRosca, AfterMissed, Ledger.Balance, Window, Started;
    ContributeRuns(id, v, now, signer, rs, r);
    RunningClaimant(id, v.c, v.l, rs, r);
  }

  // ---------- panics ----------

  /** A creation panics exactly when everything it checks is in order and the position lies between the number of slots
      and the maximum number of participants. */
  lemma CreatePanicsIff(cfg: Config, c: Circle, now: u64, signer: Account, randomOrder: bool, invited: seq<Account>, threshold: u32,
                        amount: u32, asset: Asset, frequency: u64, startBy: u64, position: Option<u32>)
    ensures CreateRosca(cfg, c, now, signer, randomOrder, invited, threshold, amount, asset, frequency, startBy, position) == Err(Panic) <==>
              var n := |SortDedup(invited)| + 1;
              && |invited| <= cfg.maxInvited < cfg.maxParticipants && amount > 0 && frequency > 0 && signer !in invited
              && threshold <= n && now < startBy && position.Some? && n <= position.value < cfg.maxParticipants
  {
    hide SortDedup;
  }

  /** No other call on a reachable circle, or on an unused id, ever panics. */
  lemma NothingElsePanics(w0: World, ms: seq<Move>, w: World, signer: Account, call: Call)
    requires Reached(w0, ms, w)
    ensures CallOn(w.cfg, w.now, View(w.At(call.id), w.ledger), signer, call) != Err(Panic)
  {
    hide Well, Mirrored, CallOn, EMPTY;
    ReachedSound(w0, ms, w);
    var v := View(w.At(call.id), w.ledger);
    if w.Has(call.id) {
      WellNeverPanics(w.cfg, w.now, v, signer, call);
    } else {
      EmptyNeverPanics(w.cfg, w.now, w.ledger, signer, call);
    }
  }

  lemma EmptyNeverPanics(cfg: Config, now: u64, l: Ledger, signer: Account, call: Call)
    ensures CallOn(cfg, now, View(EMPTY, l), signer, call) != Err(Panic)
  {
    hide CatchUp, EndLoop, Pay;
  }

  lemma WellNeverPanics(cfg: Config, now: u64, v: View, signer: Account, call: Call)
    requires Well(cfg, call.id, v.c, v.l)
    ensures CallOn(cfg, now, v, signer, call) != Err(Panic)
  {
    hide Well, PendingOk, Running, Finished, JoinRosca, LeaveRosca, StartRosca, ContributeToRosca, ManuallyEnd, Transfer;
    WellCases(cfg, call.id, v.c, v.l);
    match call {
      case Join(_, position) => JoinNeverPanics(v.c, now, signer, position);
      case Leave(_) => LeaveNeverPanics(cfg, call.id, v, signer);
      case Start(_, byte) => StartNeverPanics(cfg, call.id, v, now, signer, byte);
      case Contribute(_) => ContributeNeverPanics(cfg, call.id, v, now, signer);
      case ManualEnd(_) => ManualEndNeverPanics(cfg, call.id, v, now);
      case Claim(_, _) => TransfersNeverPanic();
      case Add(_, _) => TransfersNeverPanic();
    }
  }

  lemma TransfersNeverPanic()
    ensures forall l: Ledger, a: Asset, from: Account, to: Account, x: nat :: Transfer(l, a, from, to, x) != Err(Panic)
  {
  }

  lemma JoinNeverPanics(c: Circle, now: u64, signer: Account, position: Option<u32>)
    ensures JoinRosca(c, now, signer, position) != Err(Panic)
  {
  }

  /** Seats are within the slots. */
  lemma LeaveNeverPanics(cfg: Config, id: RoscaId, v: View, signer: Account)
    requires v.c.pending.Some? ==> PendingOk(cfg, id, v.c, v.l)
    ensures LeaveRosca(id, v, signer) != Err(Panic)
  {
    hide Quiet, SavingsOk, DefaultsOk, Solvent;
    TransfersNeverPanic();
    hide Transfer;
  }

  /** Whoever starts a circle is a member, so the order is not empty. */
  lemma StartNeverPanics(cfg: Config, id: RoscaId, v: View, now: u64, signer: Account, byte: nat)
    requires v.c.pending.Some? ==> PendingOk(cfg, id, v.c, v.l)
    ensures StartRosca(cfg, v.c, now, signer, byte) != Err(Panic)
  {
    if v.c.pending.Some? && signer in v.c.participants {
      MemberStarts(cfg, id, v, now, signer, byte);
    } else {
      hide GenerateRounds, AddTimes, Shuffle, Filled, Reverse, PendingOk;
    }
  }

  lemma MemberStarts(cfg: Config, id: RoscaId, v: View, now: u64, signer: Account, byte: nat)
    requires PendingOk(cfg, id, v.c, v.l) && v.c.pending.Some? && signer in v.c.participants
    ensures StartRosca(cfg, v.c, now, signer, byte) != Err(Panic)
  {
    hide Quiet, SavingsOk, DefaultsOk, Solvent, Seated, Shuffle, Filled, Reverse, RoundsUpTo, AddTimes;
    OrderOfLists(cfg, v.c, byte);
    var order, d := OrderOf(v.c, byte), Terms(v.c);
    assert |v.c.participants| > 0;
    RoundsClosedForm(cfg, order, now, d.frequency, |order|);
    if now + d.frequency <= U64_MAX {
      var count := v.c.participantCount.value;
      AddTimesClosedForm(now + d.frequency, d.frequency, if count == 0 then 0 else count - 1);
    }
  }

  lemma ContributeNeverPanics(cfg: Config, id: RoscaId, v: View, now: u64, signer: Account)
    requires Well(cfg, id, v.c, v.l)
    ensures ContributeToRosca(id, v, now, signer) != Err(Panic)
  {
    hide Well, PendingOk, Running, Finished, CatchUp, Pay, CloseRounds, AfterMissed;
    WellCases(cfg, id, v.c, v.l);
    if v.c.active.Some? {
      var rs, r := Published(v.c.log), Tally(v.c.log, RoundStarts);
      ContributeIs(id, v, now, signer, rs, r);
      AfterMissedRuns(id, v, now, rs, r);
      RunningDue(id, v.c, v.l, rs, r);
      var u, k := AfterMissed(id, v, now, rs, r), Window(rs, r, now);
      RunningTerms(id, v.c, v.l, rs, r);
      RunningTerms(id, u.c, u.l, rs, k);
      if MayContribute(v.c, signer) {
        if k <= |rs| {
          TwoMembers(id, v.c, v.l, rs, r, signer);
          PayNeverPanics(id, u, rs, k, signer);
        }
      }
    }
  }

  lemma PayNeverPanics(id: RoscaId, v: View, rs: seq<RoundInfo>, r: nat, signer: Account)
    requires Running(id, v.c, v.l, rs, r) && r <= |rs| && |rs| >= 2 && signer in v.c.Members() && signer !in v.c.contributors
    ensures v.c.finalPayBy.Some? && HasTerms(v.c) && Pay(v, Terms(v.c), v.c.finalPayBy.value, signer) != Err(Panic)
  {
    hide Running, Pay, Transfer;
    RunningTerms(id, v.c, v.l, rs, r);
    PayRuns(id, v, rs, r, signer);
    TransfersNeverPanic();
    if Pay(v, Terms(v.c), v.c.finalPayBy.value, signer).Err? {
      PoorPay(v, Terms(v.c), v.c.finalPayBy.value, signer);
      RunningOrder(id, v.c, v.l, rs, r);
      RunningClaimant(id, v.c, v.l, rs, r);
      RunningDue(id, v.c, v.l, rs, r);
    }
  }

  lemma RunningOrder(id: RoscaId, c: Circle, l: Ledger, rs: seq<RoundInfo>, r: nat)
    requires Running(id, c, l, rs, r)
    ensures c.order.Some? && 1 <= r
  {
  }

  lemma PoorPay(v: View, d: Details, final: u64, signer: Account)
    requires v.l.Balance(d.asset, signer) < d.amount
    ensures v.c.claimant.Some? && v.c.nextPayBy.Some? && v.c.order.Some? ==> Pay(v, d, final, signer) == Err(FundsUnavailable)
  {
    hide FinishRound;
  }

  lemma ManualEndNeverPanics(cfg: Config, id: RoscaId, v: View, now: u64)
    requires Well(cfg, id, v.c, v.l)
    ensures ManuallyEnd(id, v, now) != Err(Panic)
  {
    hide Well, PendingOk, Running, Finished, EndLoop, CloseRounds;
    WellCases(cfg, id, v.c, v.l);
    if v.c.active.Some? {
      var rs, r := Published(v.c.log), Tally(v.c.log, RoundStarts);
      RunningDue(id, v.c, v.l, rs, r);
      if now > v.c.finalPayBy.value {
        ManualEndSucceeds(id, v, now, rs, r);
      }
    }
  }
}

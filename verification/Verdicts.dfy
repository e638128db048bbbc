/** The outcome of every call: exactly when it is accepted, what it then writes, and exactly when it gives which error. */
module Verdicts {
  import opened Prelude
  import opened Storage
  import opened Rules
  import opened Journal
  import opened Schedule
  import opened Rota
  import opened Accounts
  import opened Circles
  import opened Deadlines
  import opened Membership
  import opened Launch
  import opened Payments
  import opened Mirror
  import opened Accounting
  import opened Runs
  import opened Agreement
  import opened Theorems

  // ---------- create ----------

  /** Each invited account counts once. */
  lemma GuestCount(invited: seq<Account>)
    ensures |SortDedup(invited)| == |Elems(invited)|
  {
    SortDedupIncreasing(invited);
    assert Distinct(SortDedup(invited));
    DistinctCard(SortDedup(invited));
  }

  /** A creation and its arguments. */
  datatype Proposal = Proposal(signer: Account, randomOrder: bool, invited: seq<Account>, threshold: u32, amount: u32, asset: Asset,
                               frequency: u64, startBy: u64, position: Option<u32>)
  {
    ghost function Slots(): nat {
      |Elems(invited)| + 1
    }

    function Slot(): nat {
      if position.Some? then position.value else 0
    }

    /** The arguments that do not depend on the clock or on the number of slots. */
    ghost predicate Sensible(cfg: Config) {
      |invited| <= cfg.maxInvited < cfg.maxParticipants && amount > 0 && frequency > 0 && signer !in invited
    }
  }

  ghost function Propose(cfg: Config, c: Circle, now: u64, p: Proposal): Result<Circle> {
    CreateRosca(cfg, c, now, p.signer, p.randomOrder, p.invited, p.threshold, p.amount, p.asset, p.frequency, p.startBy, p.position)
  }

  /** A creation is accepted exactly when all is in order; otherwise the error is that of the first thing that is not. */
  lemma CreateVerdict(cfg: Config, c: Circle, now: u64, p: Proposal)
    ensures var r, n := Propose(cfg, c, now, p), p.Slots();
            && (r.Ok? <==> p.Sensible(cfg) && p.threshold <= n && now < p.startBy && p.Slot() < n)
            && (r == Err(Undecodable) <==> |p.invited| > cfg.maxInvited)
            && (r == Err(ContributionAmountMustBePositive) <==> |p.invited| <= cfg.maxInvited && p.amount == 0)
            && (r == Err(FrequencyMustBePositive) <==> |p.invited| <= cfg.maxInvited && p.amount > 0 && p.frequency == 0)
            && (r == Err(ArithmeticError) <==>
                  |p.invited| <= cfg.maxInvited && p.amount > 0 && p.frequency > 0 && cfg.maxInvited >= cfg.maxParticipants)
            && (r == Err(CantInviteSelf) <==>
                  |p.invited| <= cfg.maxInvited < cfg.maxParticipants && p.amount > 0 && p.frequency > 0 && p.signer in p.invited)
            && (r == Err(ThresholdTooHigh) <==> p.Sensible(cfg) && p.threshold > n)
            && (r == Err(PositionTooLarge) <==> p.Sensible(cfg) && p.threshold <= n && p.Slot() >= cfg.maxParticipants)
            && (r == Err(StartByTimestampMustBeFuture) <==>
                  p.Sensible(cfg) && p.threshold <= n && p.Slot() < cfg.maxParticipants && now >= p.startBy)
            && (r == Err(Panic) <==>
                  p.Sensible(cfg) && p.threshold <= n && now < p.startBy && n <= p.Slot() < cfg.maxParticipants)
  {
    hide SortDedup;
    GuestCount(p.invited);
    if p.signer !in p.invited {
      Guests(p.invited, p.signer);
    }
  }

  /** What an accepted creation leaves under a fresh id: one slot per account, the creator alone in the chosen one, and the
      creator and the guests invited and announced, each once, the creator first and the guests sorted. */
  ghost predicate Proposed(c: Circle, p: Proposal) {
    && |c.log| == 1 && c.log[0].RoscaCreated? && c.pending == Some(c.log[0].details)
    && c.pending.value.randomOrder == p.randomOrder && c.pending.value.numberOfParticipants == p.Slots()
    && c.pending.value.threshold == p.threshold && c.pending.value.amount == p.amount && c.pending.value.asset == p.asset
    && c.pending.value.frequency == p.frequency && c.pending.value.startBy == p.startBy
    && c.pendingOrder.Some? && |c.pendingOrder.value| == p.Slots() && p.Slot() < p.Slots()
    && (forall i :: 0 <= i < p.Slots() ==> c.pendingOrder.value[i] == if i == p.Slot() then Some(p.signer) else None)
    && c.participants == map[p.signer := p.Slot()] && c.participantCount == Some(1)
    && c.invited == Elems(p.invited) + {p.signer}
    && c.log[0].creator == p.signer && c.log[0].eligible != [] && c.log[0].eligible[0] == p.signer
    && Distinct(c.log[0].eligible) && Elems(c.log[0].eligible) == c.invited && Increasing(c.log[0].eligible[1..])
    && c == EMPTY.(pending := c.pending, pendingOrder := c.pendingOrder, participants := c.participants,
                   participantCount := c.participantCount, invited := c.invited, log := c.log)
  }

  lemma CreateWrites(cfg: Config, now: u64, p: Proposal)
    requires Propose(cfg, EMPTY, now, p).Ok?
    ensures Proposed(Propose(cfg, EMPTY, now, p).value, p)
  {
    hide SortDedup, Elems, Distinct, Increasing;
    CreateVerdict(cfg, EMPTY, now, p);
    GuestCount(p.invited);
    AnnouncedList(p.invited, p.signer);
  }

  lemma AnnouncedList(invited: seq<Account>, signer: Account)
    requires signer !in invited
    ensures var list := [signer] + SortDedup(invited);
            && Distinct(list) && Elems(list) == Elems(invited) + {signer} && Increasing(list[1..])
            && {signer} + (set a | a in SortDedup(invited)) == Elems(invited) + {signer}
  {
    hide SortDedup, Elems, Distinct, Increasing;
    GuestList(invited, signer);
    SortDedupIncreasing(invited);
    assert ([signer] + SortDedup(invited))[1..] == SortDedup(invited);
  }

  // ---------- join, leave, start ----------

  /** A circle that waits for the signer: pending, with the signer invited and not yet in. */
  predicate Awaits(c: Circle, signer: Account) {
    c.pending.Some? && c.pendingOrder.Some? && signer in c.invited && signer !in c.Members()
  }

  ghost predicate JoinOutcomes(c: Circle, now: u64, signer: Account, position: Option<u32>, r: Result<Circle>) {
    var slots, fits := c.pendingOrder, Awaits(c, signer) && now < c.pending.value.startBy;
    && (r.Ok? <==> fits && (position.Some? ==> position.value < |slots.value| && slots.value[position.value].None?))
    && (r == Err(RoscaAlreadyActive) <==> c.active.Some?)
    && (r == Err(AlreadyJoined) <==> c.active.None? && signer in c.Members())
    && (r == Err(NotInvited) <==> c.active.None? && signer !in c.Members() && signer !in c.invited)
    && (r == Err(RoscaNotFound) <==> c.completed && signer !in c.Members() && signer in c.invited)
    && (r == Err(StartByTimestampMustBeFuture) <==> Awaits(c, signer) && now >= c.pending.value.startBy)
    && (r == Err(PositionTooLarge) <==> fits && position.Some? && position.value >= |slots.value|)
    && (r == Err(PositionAlreadyFilled) <==> fits && position.Some? && position.value < |slots.value| && slots.value[position.value].Some?)
    && (r.Err? ==> r.error in {RoscaAlreadyActive, AlreadyJoined, NotInvited, RoscaNotFound, StartByTimestampMustBeFuture,
                               PositionTooLarge, PositionAlreadyFilled})
  }

  /** The newcomer sits in the slot they named, or else in the first free one; nothing else changes. */
  ghost predicate JoinsAt(c: Circle, c': Circle, signer: Account, position: Option<u32>) {
    && signer in c'.Members() && c.pendingOrder.Some? && c.participantCount.Some?
    && var slots, k := c.pendingOrder.value, c'.participants[signer];
       && k < |slots| && slots[k].None?
       && (position.Some? ==> k == position.value)
       && (position.None? ==> forall i :: 0 <= i < k ==> slots[i].Some?)
       && c'.pendingOrder == Some(slots[k := Some(signer)])
       && c'.participants == c.participants[signer := k]
       && c'.participantCount == Some(|c.participants| + 1)
       && c' == c.(pendingOrder := c'.pendingOrder, participants := c'.participants, participantCount := c'.participantCount,
                   log := c.log + [JoinedRosca(signer)])
  }

  lemma JoinPendingOutcome(cfg: Config, id: RoscaId, c: Circle, l: Ledger, now: u64, signer: Account, position: Option<u32>)
    requires PendingOk(cfg, id, c, l)
    ensures JoinOutcomes(c, now, signer, position, JoinRosca(c, now, signer, position))
    ensures JoinRosca(c, now, signer, position).Ok? ==> JoinsAt(c, JoinRosca(c, now, signer, position).value, signer, position)
  {
    hide Quiet, SavingsOk, DefaultsOk, Solvent, Seated;
    if signer in c.invited && signer !in c.participants {
      FreeSlot(cfg, c, signer);
    }
  }

  lemma JoinOtherOutcome(c: Circle, now: u64, signer: Account, position: Option<u32>)
    requires c.pending.None? && (c.active.Some? ==> !c.completed) && (c.active.Some? || c.completed || c == EMPTY)
    ensures JoinOutcomes(c, now, signer, position, JoinRosca(c, now, signer, position))
    ensures JoinRosca(c, now, signer, position).Err?
  {
    hide FirstFree;
  }

  /** Where a reachable circle, or an unused id, stands. */
  lemma Standing(w0: World, ms: seq<Move>, w: World, id: RoscaId)
    requires Reached(w0, ms, w)
    ensures var c, l := w.At(id), w.ledger;
            var rs, r := Published(c.log), Tally(c.log, RoundStarts);
            || (PendingOk(w.cfg, id, c, l) && c.pending.Some? && c.active.None? && !c.completed)
            || (Running(id, c, l, rs, r) && 1 <= r <= |rs| && c.active.Some? && c.pending.None? && !c.completed)
            || (Finished(id, c, l, rs) && c.completed && c.pending.None? && c.active.None?)
            || c == EMPTY
  {
    hide Well, Mirrored, PendingOk, Running, Finished, EMPTY;
    ReachedSound(w0, ms, w);
    if w.Has(id) {
      WellCases(w.cfg, id, w.At(id), w.ledger);
    }
  }

  /** Exactly who can join what, where and when, in every reachable state. */
  lemma JoinVerdict(w0: World, ms: seq<Move>, w: World, id: RoscaId, signer: Account, position: Option<u32>)
    requires Reached(w0, ms, w)
    ensures var c, r := w.At(id), JoinRosca(w.At(id), w.now, signer, position);
            JoinOutcomes(c, w.now, signer, position, r) && (r.Ok? ==> JoinsAt(c, r.value, signer, position))
  {
    hide PendingOk, Running, Finished, JoinOutcomes, JoinsAt, JoinRosca;
    Standing(w0, ms, w, id);
    var c := w.At(id);
    if c.pending.Some? {
      JoinPendingOutcome(w.cfg, id, c, w.ledger, w.now, signer, position);
    } else {
      JoinOtherOutcome(c, w.now, signer, position);
    }
  }

  ghost predicate LeaveOutcomes(c: Circle, signer: Account, r: Result<View>) {
    && (r.Ok? <==> c.pending.Some? && signer in c.Members())
    && (r == Err(RoscaAlreadyActive) <==> c.active.Some?)
    && (r == Err(NotAParticipant) <==> c.active.None? && signer !in c.Members())
    && (r == Err(RoscaNotFound) <==> c.completed && signer in c.Members())
    && (r.Err? ==> r.error in {RoscaAlreadyActive, NotAParticipant, RoscaNotFound})
  }

  lemma LeavePendingOutcome(cfg: Config, id: RoscaId, v: View, signer: Account)
    requires PendingOk(cfg, id, v.c, v.l) && v.c.pending.Some?
    ensures LeaveOutcomes(v.c, signer, LeaveRosca(id, v, signer))
  {
    LeaveIs(cfg, id, v, signer);
    hide Quiet, SavingsOk, DefaultsOk, Solvent, Seated, Transfer, Moved;
  }

  /** Exactly who can leave what, in every reachable state. */
  lemma LeaveVerdict(w0: World, ms: seq<Move>, w: World, id: RoscaId, signer: Account)
    requires Reached(w0, ms, w)
    ensures LeaveOutcomes(w.At(id), signer, LeaveRosca(id, View(w.At(id), w.ledger), signer))
  {
    hide PendingOk, Running, Finished, Transfer;
    Standing(w0, ms, w, id);
    if w.At(id).pending.Some? {
      LeavePendingOutcome(w.cfg, id, View(w.At(id), w.ledger), signer);
    }
  }

  ghost predicate StartOutcomes(c: Circle, now: u64, signer: Account, r: Result<Circle>) {
    var member, n := signer in c.Members(), |c.Members()|;
    && (r.Ok? <==> c.pending.Some? && member && now < c.pending.value.startBy && n >= c.pending.value.threshold
                   && now + (n + 1) * c.pending.value.frequency <= U64_MAX)
    && (r == Err(RoscaAlreadyActive) <==> c.active.Some?)
    && (r == Err(NotAParticipant) <==> c.active.None? && !member)
    && (r == Err(RoscaNotFound) <==> c.completed && member)
    && (r == Err(StartByTimestampMustBeFuture) <==> c.pending.Some? && member && now >= c.pending.value.startBy)
    && (r == Err(ParticipantThresholdNotMet) <==> c.pending.Some? && member && now < c.pending.value.startBy && n < c.pending.value.threshold)
    && (r == Err(ArithmeticOverflow) <==> c.pending.Some? && member && now < c.pending.value.startBy && n >= c.pending.value.threshold
                                          && now + (n + 1) * c.pending.value.frequency > U64_MAX)
    && (r.Err? ==> r.error in {RoscaAlreadyActive, NotAParticipant, RoscaNotFound, StartByTimestampMustBeFuture,
                               ParticipantThresholdNotMet, ArithmeticOverflow})
  }

  lemma StartPendingOutcome(cfg: Config, id: RoscaId, c: Circle, l: Ledger, now: u64, signer: Account, byte: nat)
    requires PendingOk(cfg, id, c, l) && c.pending.Some?
    ensures StartOutcomes(c, now, signer, StartRosca(cfg, c, now, signer, byte))
  {
    StartIs(cfg, id, c, l, now, signer, byte);
    if signer in c.Members() {
      StartErrors(cfg, id, c, l, now, signer, byte);
    }
    hide Quiet, SavingsOk, DefaultsOk, Solvent, Seated, GenerateRounds, AddTimes, Shuffle, Filled, Reverse, Launched;
    assert |c.Members()| == |c.participants|;
  }

  /** A member's start in time, with enough members, can only fail on the clock. */
  lemma StartErrors(cfg: Config, id: RoscaId, c: Circle, l: Ledger, now: u64, signer: Account, byte: nat)
    requires PendingOk(cfg, id, c, l) && signer in c.Members()
    ensures var r := StartRosca(cfg, c, now, signer, byte);
            && (now >= Terms(c).startBy ==> r == Err(StartByTimestampMustBeFuture))
            && (now < Terms(c).startBy && |c.participants| < Terms(c).threshold ==> r == Err(ParticipantThresholdNotMet))
            && (now < Terms(c).startBy && |c.participants| >= Terms(c).threshold && r.Err? ==> r.error == ArithmeticOverflow)
  {
    hide Quiet, SavingsOk, DefaultsOk, Solvent, Seated, Shuffle, Filled, Reverse, RoundsUpTo, AddTimes;
    OrderOfLists(cfg, c, byte);
    var order, d := OrderOf(c, byte), Terms(c);
    RoundsClosedForm(cfg, order, now, d.frequency, |order|);
    if now + d.frequency <= U64_MAX {
      AddTimesClosedForm(now + d.frequency, d.frequency, |c.participants| - 1);
    }
  }

  /** Exactly who can start what and when, in every reachable state. */
  lemma StartVerdict(w0: World, ms: seq<Move>, w: World, id: RoscaId, signer: Account, byte: nat)
    requires Reached(w0, ms, w)
    ensures StartOutcomes(w.At(id), w.now, signer, StartRosca(w.cfg, w.At(id), w.now, signer, byte))
  {
    hide PendingOk, Running, Finished, GenerateRounds, AddTimes, Shuffle, Filled, Reverse;
    Standing(w0, ms, w, id);
    if w.At(id).pending.Some? {
      StartPendingOutcome(w.cfg, id, w.At(id), w.ledger, w.now, signer, byte);
    }
  }

  // ---------- contribute and manual end ----------

  /** The member may contribute, and some deadline is still ahead, so that money is needed. */
  ghost predicate MustPay(c: Circle, now: u64, signer: Account, rs: seq<RoundInfo>, r: nat) {
    && c.active.Some? && 1 <= r <= |rs| && signer in c.Members() && rs[r - 1].recipient != signer
    && Tally(c.log, Paid(signer, rs[r - 1].recipient)) == 0
    && Window(rs, r, now) <= |rs|
  }

  /** Here rs is the published schedule and r the number of rounds announced. */
  ghost predicate ContributeOutcomes(id: RoscaId, v: View, now: u64, signer: Account, rs: seq<RoundInfo>, r: nat, out: Result<View>) {
    var c, member := v.c, signer in v.c.Members();
    && (c.active.Some? ==> 1 <= r <= |rs| && HasTerms(c))
    && (out == Err(NotAParticipant) <==> !member)
    && (out == Err(RoscaAlreadyCompleted) <==> member && c.completed)
    && (out == Err(RoscaNotActive) <==> member && c.pending.Some?)
    && (out == Err(CantContributeToSelf) <==> member && c.active.Some? && rs[r - 1].recipient == signer)
    && (out == Err(AlreadyContributed) <==>
          member && c.active.Some? && rs[r - 1].recipient != signer && Tally(c.log, Paid(signer, rs[r - 1].recipient)) > 0)
    && (out == Err(FundsUnavailable) <==>
          MustPay(c, now, signer, rs, r) && AfterMissed(id, v, now, rs, r).l.Balance(Terms(c).asset, signer) < Terms(c).amount)
    && (out.Err? ==> out.error in {NotAParticipant, RoscaAlreadyCompleted, RoscaNotActive, CantContributeToSelf, AlreadyContributed,
                                   FundsUnavailable})
  }

  lemma IdleOutcome(id: RoscaId, v: View, now: u64, signer: Account, rs: seq<RoundInfo>, r: nat)
    requires v.c.active.None? && (v.c.pending.Some? || v.c.completed || v.c == EMPTY) && (v.c.pending.Some? ==> !v.c.completed)
    ensures ContributeOutcomes(id, v, now, signer, rs, r, ContributeToRosca(id, v, now, signer))
  {
    hide CatchUp, Pay, AfterMissed;
  }

  /** Who has contributed in the stored round, read off the log. */
  lemma StoredRound(id: RoscaId, c: Circle, l: Ledger, rs: seq<RoundInfo>, r: nat, p: Account)
    requires Running(id, c, l, rs, r) && 1 <= r <= |rs|
    ensures c.claimant == Some(rs[r - 1].recipient) && c.active == Some(Terms(c))
    ensures p in c.contributors <==> Tally(c.log, Paid(p, rs[r - 1].recipient)) > 0
  {
    hide Positioned, Collecting, SavingsOk, Solvent, DefaultsOk, Tally, Published;
    RunningClaimant(id, c, l, rs, r);
    var i := r - 1;
    assert RoundState(c.log, c.Members(), c.contributors, rs[i].recipient, i + 1, r);
  }

  lemma RunningOutcome(id: RoscaId, v: View, now: u64, signer: Account, rs: seq<RoundInfo>, r: nat)
    requires Running(id, v.c, v.l, rs, r) && 1 <= r <= |rs|
    ensures ContributeOutcomes(id, v, now, signer, rs, r, ContributeToRosca(id, v, now, signer))
  {
    hide Running, ContributeToRosca, AfterMissed, Tally, Window, Ledger.Balance, Started;
    StoredRound(id, v.c, v.l, rs, r, signer);
    Phases(id, v.c, v.l, rs, r);
    if !MayContribute(v.c, signer) {
      RefusedOutcome(id, v, now, signer, rs, r);
    } else {
      ContributeRuns(id, v, now, signer, rs, r);
      if ContributeToRosca(id, v, now, signer).Err? {
        PoorOutcome(id, v, now, signer, rs, r);
      }
    }
  }

  lemma Phases(id: RoscaId, c: Circle, l: Ledger, rs: seq<RoundInfo>, r: nat)
    requires Running(id, c, l, rs, r)
    ensures HasTerms(c) && c.active.Some? && c.pending.None? && !c.completed
    ensures c.finalPayBy.Some? && c.nextPayBy.Some? && c.order.Some?
  {
  }

  lemma RefusedOutcome(id: RoscaId, v: View, now: u64, signer: Account, rs: seq<RoundInfo>, r: nat)
    requires Running(id, v.c, v.l, rs, r) && 1 <= r <= |rs| && !MayContribute(v.c, signer)
    ensures ContributeToRosca(id, v, now, signer) ==
              if signer !in v.c.Members() then Err(NotAParticipant)
              else if v.c.claimant == Some(signer) then Err(CantContributeToSelf) else Err(AlreadyContributed)
  {
    hide Running, CatchUp, Pay;
    Phases(id, v.c, v.l, rs, r);
    StoredRound(id, v.c, v.l, rs, r, signer);
  }

  lemma PoorOutcome(id: RoscaId, v: View, now: u64, signer: Account, rs: seq<RoundInfo>, r: nat)
    requires Running(id, v.c, v.l, rs, r) && 1 <= r <= |rs| && MayContribute(v.c, signer) && ContributeToRosca(id, v, now, signer).Err?
    ensures ContributeToRosca(id, v, now, signer).error == FundsUnavailable
  {
    hide Running, ContributeToRosca, CloseRounds, Pay, AfterMissed, Ledger.Balance;
    ContributeIs(id, v, now, signer, rs, r);
    AfterMissedRuns(id, v, now, rs, r);
    var k, u := Window(rs, r, now), AfterMissed(id, v, now, rs, r);
    RunningTerms(id, v.c, v.l, rs, r);
    RunningTerms(id, u.c, u.l, rs, k);
    if k <= |rs| {
      TwoMembers(id, v.c, v.l, rs, r, signer);
      PayRuns(id, u, rs, k, signer);
      Phases(id, u.c, u.l, rs, k);
      StoredRound(id, u.c, u.l, rs, k, signer);
      NoMoney(u, Terms(u.c), u.c.finalPayBy.value, signer);
    }
  }

  lemma NoMoney(v: View, d: Details, final: u64, signer: Account)
    requires v.c.claimant.Some? && v.c.nextPayBy.Some? && v.c.order.Some? && v.l.Balance(d.asset, signer) < d.amount
    ensures Pay(v, d, final, signer) == Err(FundsUnavailable)
  {
    hide FinishRound;
  }

  /** Exactly why a contribution is refused, in every reachable state; it is accepted in all other cases. */
  lemma ContributeVerdict(w0: World, ms: seq<Move>, w: World, id: RoscaId, signer: Account)
    requires Reached(w0, ms, w)
    ensures var v := View(w.At(id), w.ledger);
            ContributeOutcomes(id, v, w.now, signer, Published(v.c.log), Tally(v.c.log, RoundStarts), ContributeToRosca(id, v, w.now, signer))
  {
    hide PendingOk, Running, Finished, ContributeToRosca, ContributeOutcomes, Tally, Published;
    Standing(w0, ms, w, id);
    var v := View(w.At(id), w.ledger);
    var rs, r := Published(v.c.log), Tally(v.c.log, RoundStarts);
    if v.c.active.Some? {
      RunningOutcome(id, v, w.now, signer, rs, r);
    } else {
      IdleOutcome(id, v, w.now, signer, rs, r);
    }
  }

  ghost predicate ManualEndOutcomes(c: Circle, now: u64, rs: seq<RoundInfo>, out: Result<View>) {
    && (c.active.Some? ==> |rs| > 0)
    && (out.Ok? <==> c.active.Some? && now > rs[|rs| - 1].cutoff)
    && (out == Err(RoscaNotActive) <==> c.active.None?)
    && (out == Err(FinalPayByTimestampMustBePast) <==> c.active.Some? && now <= rs[|rs| - 1].cutoff)
  }

  /** Exactly when a circle can be ended, in every reachable state. */
  lemma ManualEndVerdict(w0: World, ms: seq<Move>, w: World, id: RoscaId)
    requires Reached(w0, ms, w)
    ensures ManualEndOutcomes(w.At(id), w.now, Published(w.At(id).log), ManuallyEnd(id, View(w.At(id), w.ledger), w.now))
  {
    hide PendingOk, Running, Finished, ManuallyEnd, ManualEndOutcomes, Tally, Published;
    Standing(w0, ms, w, id);
    var v := View(w.At(id), w.ledger);
    if v.c.active.Some? {
      ManualEndOutcome(id, v, w.now, Published(v.c.log), Tally(v.c.log, RoundStarts));
    } else {
      NothingToEnd(id, v, w.now, Published(v.c.log));
    }
  }

  lemma ManualEndOutcome(id: RoscaId, v: View, now: u64, rs: seq<RoundInfo>, r: nat)
    requires Running(id, v.c, v.l, rs, r) && 1 <= r <= |rs|
    ensures ManualEndOutcomes(v.c, now, rs, ManuallyEnd(id, v, now))
  {
    hide Running, Finished, EndLoop, CloseRounds, Complete;
    RunningSchedule(id, v.c, v.l, rs, r);
    Phases(id, v.c, v.l, rs, r);
    if now > v.c.finalPayBy.value {
      ManualEndSucceeds(id, v, now, rs, r);
    }
  }

  lemma NothingToEnd(id: RoscaId, v: View, now: u64, rs: seq<RoundInfo>)
    requires v.c.active.None?
    ensures ManualEndOutcomes(v.c, now, rs, ManuallyEnd(id, v, now))
  {
    hide EndLoop;
  }

  // ---------- deposits ----------

  ghost predicate ClaimOutcomes(v: View, id: RoscaId, now: u64, signer: Account, asset: Asset, rs: seq<RoundInfo>, out: Result<View>) {
    var c, started := v.c, v.c.active.Some? || v.c.completed;
    && (started ==> |rs| > 0)
    && (out.Ok? <==> c.completed && now > rs[|rs| - 1].cutoff && c.Deposit(signer) > 0 && v.l.Balance(asset, Pot(id)) >= c.Deposit(signer))
    && (out == Err(FinalPayByTimestampNotFound) <==> !started)
    && (out == Err(FinalPayByTimestampMustBePast) <==> started && now <= rs[|rs| - 1].cutoff)
    && (out == Err(RoscaStillActive) <==> c.active.Some? && now > rs[|rs| - 1].cutoff)
    && (out == Err(SecurityDepositNotFound) <==> c.completed && now > rs[|rs| - 1].cutoff && signer !in c.deposits)
    && (out == Err(SecurityDepositIsZero) <==>
          c.completed && now > rs[|rs| - 1].cutoff && signer in c.deposits && c.Deposit(signer) == 0)
    && (out == Err(FundsUnavailable) <==>
          c.completed && now > rs[|rs| - 1].cutoff && v.l.Balance(asset, Pot(id)) < c.Deposit(signer))
  }

  lemma ClaimOutcome(id: RoscaId, v: View, now: u64, signer: Account, asset: Asset, rs: seq<RoundInfo>)
    requires v.c.active.Some? ==> !v.c.completed
    requires v.c.active.Some? || v.c.completed ==> |rs| > 0 && v.c.finalPayBy == Some(rs[|rs| - 1].cutoff) && v.c.pending.None?
    requires v.c.active.None? && !v.c.completed ==> v.c.finalPayBy.None?
    ensures ClaimOutcomes(v, id, now, signer, asset, rs, ClaimDeposit(id, v, now, signer, asset))
  {
  }

  /** Exactly when a deposit can be claimed, in every reachable state. */
  lemma ClaimVerdict(w0: World, ms: seq<Move>, w: World, id: RoscaId, signer: Account, asset: Asset)
    requires Reached(w0, ms, w)
    ensures var v := View(w.At(id), w.ledger);
            ClaimOutcomes(v, id, w.now, signer, asset, Published(v.c.log), ClaimDeposit(id, v, w.now, signer, asset))
  {
    hide PendingOk, Running, Finished, ClaimOutcomes, ClaimDeposit, Tally, Published;
    Standing(w0, ms, w, id);
    var v := View(w.At(id), w.ledger);
    var rs, r := Published(v.c.log), Tally(v.c.log, RoundStarts);
    if v.c.active.Some? {
      RunningSchedule(id, v.c, v.l, rs, r);
    } else if v.c.completed {
      FinishedDeadline(id, v.c, v.l, rs);
    } else if v.c.pending.Some? {
      PendingDeadline(w.cfg, id, v.c, v.l);
    }
    ClaimOutcome(id, v, w.now, signer, asset, rs);
  }

  lemma FinishedDeadline(id: RoscaId, c: Circle, l: Ledger, rs: seq<RoundInfo>)
    requires Finished(id, c, l, rs)
    ensures |rs| > 0 && c.finalPayBy == Some(rs[|rs| - 1].cutoff)
  {
  }

  lemma PendingDeadline(cfg: Config, id: RoscaId, c: Circle, l: Ledger)
    requires PendingOk(cfg, id, c, l)
    ensures c.finalPayBy.None?
  {
  }

  ghost predicate AddOutcomes(v: View, signer: Account, amount: u32, out: Result<View>) {
    var c, member := v.c, signer in v.c.Members();
    && (member ==> HasTerms(c))
    && (out == Err(NotAParticipant) <==> !member)
    && (out == Err(RoscaAlreadyCompleted) <==> member && c.completed)
    && (out == Err(FundsUnavailable) <==> member && !c.completed && v.l.Balance(Terms(c).asset, signer) < amount)
    && (out == Err(ArithmeticOverflow) <==>
          member && !c.completed && v.l.Balance(Terms(c).asset, signer) >= amount && c.Deposit(signer) + amount > U32_MAX)
    && (out.Err? ==> out.error in {NotAParticipant, RoscaAlreadyCompleted, FundsUnavailable, ArithmeticOverflow})
  }

  /** Exactly when a deposit can be added to, in every reachable state. */
  lemma AddVerdict(w0: World, ms: seq<Move>, w: World, id: RoscaId, signer: Account, amount: u32)
    requires Reached(w0, ms, w)
    ensures AddOutcomes(View(w.At(id), w.ledger), signer, amount, AddDeposit(id, View(w.At(id), w.ledger), signer, amount))
  {
    hide Running, Finished, PendingOk, Tally, Published;
    Standing(w0, ms, w, id);
    var v := View(w.At(id), w.ledger);
    var rs, r := Published(v.c.log), Tally(v.c.log, RoundStarts);
    if v.c.active.Some? {
      RunningTerms(id, v.c, v.l, rs, r);
    } else if v.c.completed {
      FinishedSchedule(id, v.c, v.l, rs);
    } else if v.c.pending.Some? {
      PendingTerms(w.cfg, id, v.c, v.l);
    }
  }

  lemma PendingTerms(cfg: Config, id: RoscaId, c: Circle, l: Ledger)
    requires PendingOk(cfg, id, c, l)
    ensures HasTerms(c) && c.pending == Some(Terms(c))
  {
  }
}

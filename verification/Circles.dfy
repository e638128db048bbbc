/** The invariant of a running circle, and the end of a round as a step that keeps it. */
module Circles {
  import opened Prelude
  import opened Storage
  import opened Rules
  import opened Journal
  import opened Schedule
  import opened Settlement
  import opened Rota
  import opened Accounts

  /** The circle's terms stay readable in its first event after its details have been deleted. */
  ghost predicate HasTerms(c: Circle) {
    |c.log| > 0 && c.log[0].RoscaCreated? && c.log[0].details.amount > 0
  }

  ghost function Terms(c: Circle): Details
    requires HasTerms(c)
  {
    c.log[0].details
  }

  /** Per member: everything added is still held, was taken for a recipient, or went back to the member;
      and only members hold a deposit. */
  ghost predicate SavingsOk(c: Circle) {
    && (forall p :: Tally(c.log, Added(p)) == Tally(c.log, Returned(p)) + Tally(c.log, Taken(p)) + c.Deposit(p))
    && (forall p :: c.Deposit(p) > 0 ==> p in c.Members())
  }

  /** The circle's account covers every recorded deposit. */
  ghost predicate Solvent(id: RoscaId, c: Circle, l: Ledger)
    requires HasTerms(c)
  {
    l.Balance(Terms(c).asset, Pot(id)) >= Sum(c.deposits)
  }

  /** Default counts are the defaults in the log, and at most one per round that is over. */
  ghost predicate DefaultsOk(c: Circle, over: nat) {
    forall p :: c.Defaults(p) == Tally(c.log, MissedBy(p)) <= over
  }

  ghost predicate KeyHolders(members: set<Account>) {
    forall p :: p in members ==> p.Member?
  }

  ghost predicate InPhaseActive(c: Circle) {
    HasTerms(c) && c.active == Some(Terms(c)) && c.pending.None? && !c.completed
  }

  /** An active circle in round r of the schedule rs; r = n + 1 only between the last deadline and completion. */
  ghost predicate Running(id: RoscaId, c: Circle, l: Ledger, rs: seq<RoundInfo>, r: nat) {
    && InPhaseActive(c)
    && KeyHolders(c.Members())
    && OnTrack(c, Terms(c).frequency, rs, r)
    && Published(c.log) == rs
    && Tally(c.log, RoundStarts) == r
    && SavingsOk(c)
    && Solvent(id, c, l)
    && DefaultsOk(c, r - 1)
    && BooksOk(c.log, c.Members(), c.contributors, rs, r)
  }

  // ---------- settling the late members ----------

  ghost predicate SettledRound(id: RoscaId, d: Details, v: View, v': View, r: Account, late: set<Account>) {
    && Settled(d, r, v.c, v'.c, late)
    && Moved(v.l, v'.l, d.asset, Pot(id), r, Sum(Dues(v.c, d.amount, late)))
    && v.c.log <= v'.c.log
  }

  lemma {:induction false} SettleExtendsLog(id: RoscaId, d: Details, r: Account, v: View, ps: seq<Account>)
    requires Settle(id, d, r, v, ps).Ok?
    ensures v.c.log <= Settle(id, d, r, v, ps).value.c.log
  {
    if ps != [] {
      SettleExtendsLog(id, d, r, v, ps[..|ps| - 1]);
    }
  }

  lemma LateMembers(c: Circle, f: pos64, rs: seq<RoundInfo>, r: nat)
    requires OnTrack(c, f, rs, r)
    ensures c.claimant.Some? && c.claimant.value in c.Members()
    ensures c.order.Some? && Distinct(c.order.value)
    ensures Late(c, c.claimant.value, c.order.value) == c.Members() - {c.claimant.value} - c.contributors
  {
    hide Positioned, Collecting;
    PositionedLists(c, f, rs, r);
  }

  /** In a running circle the defaulter loop cannot fail, and deals with exactly the members
      that are neither the claimant nor contributors. */
  lemma ProcessRunning(id: RoscaId, v: View, rs: seq<RoundInfo>, r: nat)
    requires Running(id, v.c, v.l, rs, r)
    ensures v.c.claimant.Some? && v.c.claimant.value in v.c.Members()
    ensures ProcessDefaulters(id, v).Ok?
    ensures SettledRound(id, Terms(v.c), v, ProcessDefaulters(id, v).value, v.c.claimant.value,
                         v.c.Members() - {v.c.claimant.value} - v.c.contributors)
  {
    hide OnTrack, SavingsOk, DefaultsOk, BooksOk, Settled, Moved, Tally, Sum, Dues, Published, Ledger.Balance, Late, Settle;
    LateMembers(v.c, Terms(v.c).frequency, rs, r);
    SettleClosedForm(id, Terms(v.c), v.c.claimant.value, v, v.c.order.value);
    SettleExtendsLog(id, Terms(v.c), v.c.claimant.value, v, v.c.order.value);
  }

  lemma SettledSavings(c: Circle, c': Circle, d: Details, r: Account, late: set<Account>)
    requires SavingsOk(c) && Settled(d, r, c, c', late)
    ensures SavingsOk(c')
  {
    hide Tally, Sum, Dues, DefaultsSettled, Published;
  }

  lemma SettledSolvent(id: RoscaId, c: Circle, c': Circle, l: Ledger, l': Ledger, r: Account, late: set<Account>)
    requires HasTerms(c) && HasTerms(c') && Terms(c') == Terms(c) && r != Pot(id)
    requires Solvent(id, c, l) && Settled(Terms(c), r, c, c', late)
    requires Moved(l, l', Terms(c).asset, Pot(id), r, Sum(Dues(c, Terms(c).amount, late)))
    ensures Solvent(id, c', l')
    ensures l'.Balance(Terms(c).asset, Pot(id)) - Sum(c'.deposits) == l.Balance(Terms(c).asset, Pot(id)) - Sum(c.deposits)
  {
    hide Tally, Sum;
  }

  lemma SettledDefaults(c: Circle, c': Circle, d: Details, r: Account, late: set<Account>, over: nat)
    requires DefaultsOk(c, over) && over < U32_MAX && Settled(d, r, c, c', late)
    ensures DefaultsOk(c', over + 1)
  {
    hide Tally, Sum;
  }

  lemma SettledOnTrack(c: Circle, c': Circle, f: pos64, rs: seq<RoundInfo>, r: nat)
    requires OnTrack(c, f, rs, r) && OnlyMoneyMoved(c, c')
    ensures OnTrack(c', f, rs, r)
  {
    hide ScheduleFor, OrderAt, DueAt;
  }

  // ---------- from one round to the next ----------

  /** Round r is over in the books, and the circle has not moved on yet. */
  ghost predicate Ending(id: RoscaId, c: Circle, l: Ledger, rs: seq<RoundInfo>, r: nat) {
    && InPhaseActive(c)
    && KeyHolders(c.Members())
    && Positioned(c, Terms(c).frequency, rs, r)
    && r <= |rs|
    && (c.contributors == {} || |c.contributors| <= |rs| - 1)
    && Published(c.log) == rs
    && Tally(c.log, RoundStarts) == r
    && SavingsOk(c)
    && Solvent(id, c, l)
    && DefaultsOk(c, r)
    && BooksOk(c.log, c.Members(), {}, rs, r + 1)
  }

  /** All rounds are over; order, claimant and deadline stay those of the last round announced, n or n + 1. */
  ghost predicate Finished(id: RoscaId, c: Circle, l: Ledger, rs: seq<RoundInfo>) {
    && HasTerms(c) && c.completed && c.active.None? && c.pending.None?
    && KeyHolders(c.Members())
    && Positioned(c, Terms(c).frequency, rs, Tally(c.log, RoundStarts))
    && |rs| <= Tally(c.log, RoundStarts)
    && Published(c.log) == rs
    && SavingsOk(c)
    && Solvent(id, c, l)
    && DefaultsOk(c, |rs|)
    && BooksOk(c.log, c.Members(), {}, rs, |rs| + 1)
  }

  lemma SettledBooks(c: Circle, c': Circle, d: Details, rs: seq<RoundInfo>, r: nat, late: set<Account>)
    requires OnTrack(c, d.frequency, rs, r) && r <= |rs| && d.amount > 0
    requires BooksOk(c.log, c.Members(), c.contributors, rs, r)
    requires c.claimant.Some? && c.claimant.value in c.Members()
    requires LogSettled(d.amount, c.claimant.value, c, c', late)
    requires late == c.Members() - {c.claimant.value} - c.contributors
    ensures BooksOk(c'.log, c.Members(), {}, rs, r + 1)
  {
    hide OrderAt, Tally, LogSettled, Open, Closed, SameFor;
    ClaimantIsScheduled(c, d.frequency, rs, r);
    ScheduleSize(rs, c.Members(), d.frequency);
    var x := rs[r - 1].recipient;
    assert RoundState(c.log, c.Members(), c.contributors, x, r, r);
    CloseByDeadline(c, c', d.amount, x, late);
    forall y | y != x ensures SameFor(c.log, c'.log, y) {
      SettledElsewhere(c, c', d.amount, x, late, y);
    }
    BooksAdvance(c.log, c.Members(), c.contributors, rs, d.frequency, r, c'.log);
  }

  lemma SettledTally(c: Circle, c': Circle, d: Details, r: Account, late: set<Account>)
    requires Settled(d, r, c, c', late)
    ensures OnlyMoneyMoved(c, c')
    ensures LogSettled(d.amount, r, c, c', late)
    ensures Tally(c'.log, RoundStarts) == Tally(c.log, RoundStarts)
    ensures Published(c'.log) == Published(c.log)
  {
  }

  /** After the defaulter loop round r is over. */
  lemma ProcessEndsRound(id: RoscaId, v: View, rs: seq<RoundInfo>, r: nat)
    requires Running(id, v.c, v.l, rs, r) && r <= |rs|
    ensures ProcessDefaulters(id, v).Ok?
    ensures Ending(id, ProcessDefaulters(id, v).value.c, ProcessDefaulters(id, v).value.l, rs, r)
  {
    hide ScheduleFor, OrderAt, DueAt, Settled, ProcessDefaulters, SavingsOk, DefaultsOk, BooksOk, Tally, Sum, Dues, Published,
      Ledger.Balance, LogSettled, Moved, Solvent;
    ProcessRunning(id, v, rs, r);
    RunningSmall(id, v.c, v.l, rs, r);
    var v1 := ProcessDefaulters(id, v).value;
    var d, x := Terms(v.c), v.c.claimant.value;
    var late := v.c.Members() - {x} - v.c.contributors;
    SettledTally(v.c, v1.c, d, x, late);
    assert v1.c.log[0] == v.c.log[0];
    SettledSavings(v.c, v1.c, d, x, late);
    SettledSolvent(id, v.c, v1.c, v.l, v1.l, x, late);
    SettledDefaults(v.c, v1.c, d, x, late, r - 1);
    SettledOnTrack(v.c, v1.c, d.frequency, rs, r);
    SettledBooks(v.c, v1.c, d, rs, r, late);
  }

  lemma RunningSmall(id: RoscaId, c: Circle, l: Ledger, rs: seq<RoundInfo>, r: nat)
    requires Running(id, c, l, rs, r)
    ensures |rs| <= U32_MAX
  {
  }

  // ---------- events that settle nothing ----------

  predicate IsPayment(e: Event) {
    e.ContributionMade? || e.DepositDeducted? || e.ParticipantDefaulted?
  }

  lemma PushOther(log: seq<Event>, e: Event)
    requires !IsPayment(e)
    ensures forall x :: SameFor(log, log + [e], x)
    ensures forall p :: Tally(log + [e], MissedBy(p)) == Tally(log, MissedBy(p))
    ensures forall p :: Tally(log + [e], Taken(p)) == Tally(log, Taken(p))
    ensures Tally(log + [e], RoundStarts) == Tally(log, RoundStarts) + If(e.RoscaStarted? || e.NewRoundStarted?)
    ensures Published(log + [e]) == if e.RoscaStarted? then e.rounds else Published(log)
  {
    Push(log, e);
    hide Tally, Published;
  }

  lemma PushBooks(log: seq<Event>, e: Event, members: set<Account>, contributors: set<Account>, rs: seq<RoundInfo>, r: nat)
    requires !IsPayment(e) && BooksOk(log, members, contributors, rs, r)
    ensures BooksOk(log + [e], members, contributors, rs, r)
  {
    hide BooksOk, SameFor, Tally, Published;
    PushOther(log, e);
    BooksSame(log, log + [e], members, contributors, rs, r);
  }

  /** The announcements of a new round or of completion move no deposit. */
  lemma PushSavings(c: Circle, c': Circle, e: Event)
    requires e.NewRoundStarted? || e.RoscaComplete? || e.RoscaStarted? || e.ContributionMade? || e.JoinedRosca?
    requires c'.log == c.log + [e] && c'.deposits == c.deposits && c.Members() <= c'.Members()
    requires SavingsOk(c)
    ensures SavingsOk(c')
  {
    Push(c.log, e);
    hide Tally;
  }

  lemma PushDefaults(c: Circle, c': Circle, e: Event, over: nat)
    requires !e.ParticipantDefaulted? && c'.log == c.log + [e] && c'.defaults == c.defaults
    requires DefaultsOk(c, over)
    ensures DefaultsOk(c', over)
  {
    Push(c.log, e);
    hide Tally;
  }

  /** Once round r is over, moving on makes the circle run in round r + 1. */
  lemma MoveOn(id: RoscaId, c: Circle, l: Ledger, rs: seq<RoundInfo>, r: nat)
    requires Ending(id, c, l, rs, r)
    ensures DueAt(rs, Terms(c).frequency, r + 1) <= U64_MAX
    ensures Running(id, NextRound(c, c.order.value, DueAt(rs, Terms(c).frequency, r + 1)), l, rs, r + 1)
  {
    hide ScheduleFor, OrderAt, DueAt, SavingsOk, DefaultsOk, BooksOk, Tally, Sum, Published, Ledger.Balance;
    var f := Terms(c).frequency;
    NextRoundOnTrack(c, f, rs, r);
    var next := DueAt(rs, f, r + 1);
    var c' := NextRound(c, c.order.value, next);
    var e := NewRoundStarted(c.order.value[|c.order.value| - 1], next);
    assert c'.log == c.log + [e] && c'.log[0] == c.log[0];
    PushOther(c.log, e);
    PushBooks(c.log, e, c.Members(), {}, rs, r + 1);
    PushSavings(c, c', e);
    PushDefaults(c, c', e, r);
  }

  lemma CompleteFinishes(id: RoscaId, c: Circle, l: Ledger, rs: seq<RoundInfo>)
    requires Ending(id, c, l, rs, |rs|) || Running(id, c, l, rs, |rs| + 1)
    ensures Finished(id, Complete(c), l, rs)
  {
    hide ScheduleFor, OrderAt, DueAt, SavingsOk, DefaultsOk, BooksOk, Tally, Sum, Published, Ledger.Balance, Collecting;
    BooksAllOver(c.log, c.Members(), c.contributors, rs);
    assert Complete(c).log == c.log + [RoscaComplete] && Complete(c).log[0] == c.log[0];
    PushOther(c.log, RoscaComplete);
    PushBooks(c.log, RoscaComplete, c.Members(), {}, rs, |rs| + 1);
    PushSavings(c, Complete(c), RoscaComplete);
    PushDefaults(c, Complete(c), RoscaComplete, |rs|);
  }

  lemma BooksAllOver(log: seq<Event>, members: set<Account>, contributors: set<Account>, rs: seq<RoundInfo>)
    ensures BooksOk(log, members, contributors, rs, |rs| + 1) ==> BooksOk(log, members, {}, rs, |rs| + 1)
  {
    hide Closed, Open;
  }

  /** A missed deadline: the round is closed without failure and the circle runs in the next round. */
  lemma CloseRoundRuns(id: RoscaId, v: View, rs: seq<RoundInfo>, r: nat)
    requires Running(id, v.c, v.l, rs, r) && r <= |rs|
    ensures CloseRound(id, v).Ok?
    ensures Running(id, CloseRound(id, v).value.c, CloseRound(id, v).value.l, rs, r + 1)
  {
    hide Positioned, DueAt, SavingsOk, DefaultsOk, BooksOk, Tally, Sum, Published, Ledger.Balance, AdvanceRound, NextRound, ProcessDefaulters;
    ProcessEndsRound(id, v, rs, r);
    var v1 := ProcessDefaulters(id, v).value;
    EndingAdvances(id, v1.c, v1.l, rs, r);
  }

  lemma EndingAdvances(id: RoscaId, c: Circle, l: Ledger, rs: seq<RoundInfo>, r: nat)
    requires Ending(id, c, l, rs, r)
    ensures AdvanceRound(c).Ok?
    ensures Running(id, AdvanceRound(c).value, l, rs, r + 1)
  {
    hide DueAt, SavingsOk, DefaultsOk, BooksOk, Tally, Sum, Published, Ledger.Balance, AdvanceRound, NextRound, Running, ScheduleFor, OrderAt;
    AdvanceOnTrack(c, Terms(c).frequency, rs, r);
    MoveOn(id, c, l, rs, r);
  }
}

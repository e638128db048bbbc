/** Contributions, and the inline end of a round. */
module Payments {
  import opened Prelude
  import opened Storage
  import opened Rules
  import opened Journal
  import opened Schedule
  import opened Settlement
  import opened Rota
  import opened Accounts
  import opened Circles
  import opened Deadlines

  /** What recording a contribution writes. */
  ghost function Recorded(c: Circle, signer: Account): Circle
    requires HasTerms(c) && c.claimant.Some? && c.contributionCount < U32_MAX
  {
    c.(contributors := c.contributors + {signer},
       contributionCount := c.contributionCount + 1,
       log := c.log + [ContributionMade(signer, c.claimant.value, Terms(c).amount)])
  }

  lemma PaidPush(log: seq<Event>, p: Account, r: Account, amount: nat)
    ensures var log' := log + [ContributionMade(p, r, amount)];
            && (forall x :: x != r ==> SameFor(log, log', x))
            && Tally(log', RoundStarts) == Tally(log, RoundStarts)
            && Published(log') == Published(log)
            && Tally(log', PaidTo(r)) == Tally(log, PaidTo(r)) + 1
            && (forall q :: Tally(log', Paid(q, r)) == Tally(log, Paid(q, r)) + If(q == p))
            && (forall q :: Tally(log', Covered(q, r)) == Tally(log, Covered(q, r)))
            && (forall q :: Tally(log', Missed(q, r)) == Tally(log, Missed(q, r)))
            && (forall q :: Tally(log', Docked(q, r)) == Tally(log, Docked(q, r)))
  {
    Push(log, ContributionMade(p, r, amount));
    hide Tally, Published;
  }

  lemma OpenPaid(log: seq<Event>, p: Account, r: Account, amount: nat, contributors: set<Account>)
    requires Open(log, r, contributors) && p !in contributors
    ensures Open(log + [ContributionMade(p, r, amount)], r, contributors + {p})
  {
    PaidPush(log, p, r, amount);
    hide Tally, SameFor, Published;
  }

  /** A contribution to the current recipient is one more mark in the current round. */
  lemma BooksPaid(log: seq<Event>, members: set<Account>, contributors: set<Account>, rs: seq<RoundInfo>, f: pos64, r: nat, p: Account, amount: nat)
    requires ScheduleFor(rs, members, f) && 1 <= r <= |rs|
    requires BooksOk(log, members, contributors, rs, r) && p !in contributors
    ensures BooksOk(log + [ContributionMade(p, rs[r - 1].recipient, amount)], members, contributors + {p}, rs, r)
  {
    hide Open, Closed, SameFor, Tally, Published;
    var x := rs[r - 1].recipient;
    var log' := log + [ContributionMade(p, x, amount)];
    PaidPush(log, p, x, amount);
    forall k | 0 <= k < |rs| ensures RoundState(log', members, contributors + {p}, rs[k].recipient, k + 1, r) {
      assert RoundState(log, members, contributors, rs[k].recipient, k + 1, r);
      if k == r - 1 {
        OpenPaid(log, p, x, amount, contributors);
      } else {
        assert Recipients(rs)[k] != Recipients(rs)[r - 1];
        SameForKeeps(log, log', members, contributors, rs[k].recipient, k + 1, r);
      }
    }
  }

  lemma BooksCounted(log: seq<Event>, members: set<Account>, contributors: set<Account>, rs: seq<RoundInfo>, f: pos64, r: nat)
    requires ScheduleFor(rs, members, f) && 1 <= r <= |rs|
    requires BooksOk(log, members, contributors, rs, r)
    requires contributors <= members && |contributors| == |rs| - 1
    ensures BooksOk(log, members, {}, rs, r + 1)
  {
    ScheduleSize(rs, members, f);
    hide Open, Closed, Tally, SameFor;
    var x := rs[r - 1].recipient;
    assert RoundState(log, members, contributors, x, r, r);
    CloseByCount(log, members, contributors, x);
    forall y ensures SameFor(log, log, y) {
      SameForSelf(log, y);
    }
    BooksAdvance(log, members, contributors, rs, f, r, log);
  }

  lemma SameForSelf(log: seq<Event>, y: Account)
    ensures SameFor(log, log, y)
  {
  }

  lemma RecordedPosition(c: Circle, f: pos64, rs: seq<RoundInfo>, r: nat, signer: Account)
    requires HasTerms(c) && OnTrack(c, f, rs, r) && r <= |rs| && |rs| >= 2
    requires signer in c.Members() && signer !in c.contributors
    ensures c.claimant == Some(rs[r - 1].recipient) && c.contributionCount < U32_MAX
    ensures Positioned(Recorded(c, signer), f, rs, r)
    ensures |c.contributors| + 1 <= |rs| - 1
    ensures Recorded(c, signer).contributors <= c.Members() && |Recorded(c, signer).contributors| == |c.contributors| + 1
    ensures |c.contributors| + 1 < |rs| - 1 ==> Collecting(Recorded(c, signer), |rs|)
  {
    ClaimantIsScheduled(c, f, rs, r);
    assert |rs| <= U32_MAX;
    hide ScheduleFor, OrderAt, DueAt;
  }

  lemma RecordedBooks(c: Circle, f: pos64, rs: seq<RoundInfo>, r: nat, signer: Account)
    requires HasTerms(c) && OnTrack(c, f, rs, r) && r <= |rs| && |rs| >= 2
    requires signer in c.Members() && signer !in c.contributors
    requires BooksOk(c.log, c.Members(), c.contributors, rs, r) && SavingsOk(c) && DefaultsOk(c, r - 1)
    ensures c.claimant.Some? && c.contributionCount < U32_MAX
    ensures var c' := Recorded(c, signer);
            && BooksOk(c'.log, c.Members(), c'.contributors, rs, r) && SavingsOk(c') && DefaultsOk(c', r - 1)
            && Tally(c'.log, RoundStarts) == Tally(c.log, RoundStarts) && Published(c'.log) == Published(c.log)
  {
    hide OrderAt, DueAt, SavingsOk, DefaultsOk, BooksOk, Tally, Published;
    RecordedPosition(c, f, rs, r, signer);
    var c' := Recorded(c, signer);
    var e := ContributionMade(signer, c.claimant.value, Terms(c).amount);
    PaidPush(c.log, signer, c.claimant.value, Terms(c).amount);
    BooksPaid(c.log, c.Members(), c.contributors, rs, f, r, signer, Terms(c).amount);
    PushSavings(c, c', e);
    PushDefaults(c, c', e, r - 1);
  }

  /** The circle once a contribution is recorded: the round goes on, or it is over. */
  lemma RecordedRuns(id: RoscaId, c: Circle, l: Ledger, l': Ledger, rs: seq<RoundInfo>, r: nat, signer: Account)
    requires Running(id, c, l, rs, r) && r <= |rs| && |rs| >= 2
    requires signer in c.Members() && signer !in c.contributors
    requires Solvent(id, c, l')
    ensures c.claimant.Some? && c.contributionCount < U32_MAX
    ensures |c.contributors| + 1 < |rs| - 1 ==> Running(id, Recorded(c, signer), l', rs, r)
    ensures |c.contributors| + 1 >= |rs| - 1 ==> |c.contributors| + 1 == |rs| - 1 && Ending(id, Recorded(c, signer), l', rs, r)
  {
    hide Positioned, ScheduleFor, SavingsOk, DefaultsOk, BooksOk, Tally, Sum, Published, Ledger.Balance, Collecting;
    RecordedPosition(c, Terms(c).frequency, rs, r, signer);
    RecordedBooks(c, Terms(c).frequency, rs, r, signer);
    RunningSchedule(id, c, l, rs, r);
    var c' := Recorded(c, signer);
    assert c'.log[0] == c.log[0];
    if |c.contributors| + 1 >= |rs| - 1 {
      BooksCounted(c'.log, c.Members(), c'.contributors, rs, Terms(c).frequency, r);
      DefaultsGrow(c', r - 1);
    }
  }

  lemma DefaultsGrow(c: Circle, over: nat)
    requires DefaultsOk(c, over)
    ensures DefaultsOk(c, over + 1)
  {
    hide Tally;
  }

  /** `Pay` in terms of the recorded contribution. */
  lemma PayIs(id: RoscaId, v: View, rs: seq<RoundInfo>, r: nat, signer: Account)
    requires Running(id, v.c, v.l, rs, r) && r <= |rs|
    requires v.c.finalPayBy.Some? && v.c.contributionCount < U32_MAX && v.c.claimant.Some?
    ensures var d := Terms(v.c);
            var t := Transfer(v.l, d.asset, signer, v.c.claimant.value, d.amount);
            var c1 := Recorded(v.c, signer);
            && (t.Err? ==> Pay(v, d, v.c.finalPayBy.value, signer) == Err(t.error))
            && (t.Ok? && |v.c.contributors| + 1 != |rs| - 1 ==>
                  Pay(v, d, v.c.finalPayBy.value, signer) == Ok(View(c1, t.value)))
            && (t.Ok? && |v.c.contributors| + 1 == |rs| - 1 ==>
                  var f := FinishRound(c1, d, v.c.order.value, v.c.nextPayBy.value, v.c.finalPayBy.value);
                  && (f.Ok? ==> Pay(v, d, v.c.finalPayBy.value, signer) == Ok(View(f.value, t.value)))
                  && (f.Err? ==> Pay(v, d, v.c.finalPayBy.value, signer) == Err(f.error)))
  {
    hide ScheduleFor, DueAt, SavingsOk, DefaultsOk, BooksOk, Tally, Sum, Published, Ledger.Balance, Transfer, FinishRound, Solvent;
  }

  /** A started circle is well: running within its schedule, or finished. */
  ghost predicate Started(id: RoscaId, c: Circle, l: Ledger, rs: seq<RoundInfo>) {
    || (Running(id, c, l, rs, Tally(c.log, RoundStarts)) && Tally(c.log, RoundStarts) <= |rs|)
    || Finished(id, c, l, rs)
  }

  lemma RunningIsStarted(id: RoscaId, c: Circle, l: Ledger, rs: seq<RoundInfo>, r: nat)
    requires Running(id, c, l, rs, r) && r <= |rs|
    ensures Started(id, c, l, rs)
  {
  }

  lemma EndingFinishes(id: RoscaId, c: Circle, l: Ledger, rs: seq<RoundInfo>, r: nat)
    requires Ending(id, c, l, rs, r)
    ensures c.order.Some? && c.nextPayBy.Some? && c.finalPayBy.Some?
    ensures FinishRound(c, Terms(c), c.order.value, c.nextPayBy.value, c.finalPayBy.value).Ok?
    ensures Started(id, FinishRound(c, Terms(c), c.order.value, c.nextPayBy.value, c.finalPayBy.value).value, l, rs)
  {
    hide DueAt, SavingsOk, DefaultsOk, BooksOk, Tally, Sum, Published, Ledger.Balance, FinishRound, NextRound, Complete,
      Running, ScheduleFor, Finished, Started;
    FinishOnTrack(c, Terms(c), rs, r);
    if r == |rs| {
      CompleteFinishes(id, c, l, rs);
      FinishedIsStarted(id, Complete(c), l, rs);
    } else {
      MoveOn(id, c, l, rs, r);
      RunningIsStarted(id, NextRound(c, c.order.value, DueAt(rs, Terms(c).frequency, r + 1)), l, rs, r + 1);
    }
  }

  lemma FinishedIsStarted(id: RoscaId, c: Circle, l: Ledger, rs: seq<RoundInfo>)
    requires Finished(id, c, l, rs)
    ensures Started(id, c, l, rs)
  {
  }

  /** In a running circle the payment step fails only for lack of funds, and keeps the circle well. */
  lemma PayRuns(id: RoscaId, v: View, rs: seq<RoundInfo>, r: nat, signer: Account)
    requires Running(id, v.c, v.l, rs, r) && r <= |rs| && |rs| >= 2
    requires signer in v.c.Members() && signer !in v.c.contributors
    ensures v.c.finalPayBy.Some?
    ensures Pay(v, Terms(v.c), v.c.finalPayBy.value, signer).Ok? <==> v.l.Balance(Terms(v.c).asset, signer) >= Terms(v.c).amount
    ensures Pay(v, Terms(v.c), v.c.finalPayBy.value, signer).Ok? ==>
              var u := Pay(v, Terms(v.c), v.c.finalPayBy.value, signer).value;
              Started(id, u.c, u.l, rs)
  {
    hide DueAt, Tally, Published, Ledger.Balance, FinishRound, Running, Started, Ending, Transfer, Pay, Recorded, Solvent;
    RunningDue(id, v.c, v.l, rs, r);
    PaymentKeepsSolvent(id, v.c, v.l, rs, r, signer);
    var d := Terms(v.c);
    TransferEffect(v.l, d.asset, signer, v.c.claimant.value, d.amount);
    RecordedRuns(id, v.c, v.l, v.l, rs, r, signer);
    PayIs(id, v, rs, r, signer);
    if v.l.Balance(d.asset, signer) >= d.amount {
      var l' := Transfer(v.l, d.asset, signer, v.c.claimant.value, d.amount).value;
      RecordedRuns(id, v.c, v.l, l', rs, r, signer);
      var c1 := Recorded(v.c, signer);
      RecordedKeeps(v.c, signer);
      if |v.c.contributors| + 1 == |rs| - 1 {
        EndingFinishes(id, c1, l', rs, r);
      } else {
        RunningIsStarted(id, c1, l', rs, r);
      }
    }
  }

  lemma RecordedKeeps(c: Circle, signer: Account)
    requires HasTerms(c) && c.claimant.Some? && c.contributionCount < U32_MAX
    ensures HasTerms(Recorded(c, signer)) && Terms(Recorded(c, signer)) == Terms(c)
    ensures Recorded(c, signer).order == c.order && Recorded(c, signer).nextPayBy == c.nextPayBy
    ensures Recorded(c, signer).finalPayBy == c.finalPayBy
  {
    assert Recorded(c, signer).log[0] == c.log[0];
  }

  /** Members pay members, so a contribution leaves the pot alone. */
  lemma PaymentKeepsSolvent(id: RoscaId, c: Circle, l: Ledger, rs: seq<RoundInfo>, r: nat, signer: Account)
    requires Running(id, c, l, rs, r) && signer in c.Members()
    ensures HasTerms(c) && c.claimant.Some? && c.claimant.value in c.Members() && c.claimant.value.Member? && signer.Member?
    ensures Solvent(id, c, l)
    ensures Transfer(l, Terms(c).asset, signer, c.claimant.value, Terms(c).amount).Ok? ==>
              Solvent(id, c, Transfer(l, Terms(c).asset, signer, c.claimant.value, Terms(c).amount).value)
  {
    hide OrderAt, ScheduleFor, DueAt, SavingsOk, DefaultsOk, BooksOk, Tally, Sum, Published, Ledger.Balance, Transfer;
    LateMembers(c, Terms(c).frequency, rs, r);
    TransferEffect(l, Terms(c).asset, signer, c.claimant.value, Terms(c).amount);
  }

  // ---------- the whole call ----------

  /** May this account contribute at all, whatever the time? */
  ghost predicate MayContribute(c: Circle, signer: Account) {
    signer in c.Members() && c.claimant != Some(signer) && signer !in c.contributors
  }

  lemma CloseRoundEmpties(id: RoscaId, v: View, rs: seq<RoundInfo>, r: nat)
    requires Running(id, v.c, v.l, rs, r) && r <= |rs|
    ensures CloseRound(id, v).Ok? && CloseRound(id, v).value.c.contributors == {}
    ensures CloseRound(id, v).value.c.Members() == v.c.Members()
  {
    hide SavingsOk, DefaultsOk, BooksOk, Tally, Sum, Published, Ledger.Balance, Settle, ScheduleFor, OrderAt;
    CloseRoundRuns(id, v, rs, r);
    ClearIsEnough(v.c, |rs|);
  }

  lemma {:induction false} CloseRoundsEmpty(id: RoscaId, v: View, m: nat, rs: seq<RoundInfo>, r: nat)
    requires Running(id, v.c, v.l, rs, r) && r + m <= |rs| + 1
    ensures CloseRounds(id, v, m).Ok?
    ensures CloseRounds(id, v, m).value.c.Members() == v.c.Members()
    ensures CloseRounds(id, v, m).value.c.contributors == if m == 0 then v.c.contributors else {}
    decreases m
  {
    hide Running, CloseRound;
    if m > 0 {
      CloseRoundEmpties(id, v, rs, r);
      CloseRoundRuns(id, v, rs, r);
      CloseRoundsEmpty(id, CloseRound(id, v).value, m - 1, rs, r + 1);
    }
  }

  /** The catch-up's result when the missed rounds are closed. */
  ghost function AfterMissed(id: RoscaId, v: View, now: u64, rs: seq<RoundInfo>, r: nat): View
    requires 1 <= r <= |rs| + 1
  {
    var u := CloseRounds(id, v, Window(rs, r, now) - r);
    if u.Ok? then u.value else v
  }

  lemma AfterMissedRuns(id: RoscaId, v: View, now: u64, rs: seq<RoundInfo>, r: nat)
    requires Running(id, v.c, v.l, rs, r) && 1 <= r <= |rs|
    ensures CloseRounds(id, v, Window(rs, r, now) - r).Ok?
    ensures var u := AfterMissed(id, v, now, rs, r);
            && Running(id, u.c, u.l, rs, Window(rs, r, now))
            && u.c.Members() == v.c.Members() && u.c.finalPayBy == v.c.finalPayBy && u.c.active == v.c.active
            && u.c.contributors == (if Window(rs, r, now) == r then v.c.contributors else {})
  {
    hide Running, CloseRounds;
    var m := Window(rs, r, now) - r;
    CloseRoundsRun(id, v, m, rs, r);
    CloseRoundsEmpty(id, v, m, rs, r);
    CloseRoundsKeep(id, v, m);
  }

  lemma ContributeIs(id: RoscaId, v: View, now: u64, signer: Account, rs: seq<RoundInfo>, r: nat)
    requires Running(id, v.c, v.l, rs, r) && 1 <= r <= |rs|
    ensures v.c.finalPayBy.Some? && v.c.active.Some?
    ensures !MayContribute(v.c, signer) ==> ContributeToRosca(id, v, now, signer).Err?
    ensures MayContribute(v.c, signer) ==>
              var u := AfterMissed(id, v, now, rs, r);
              ContributeToRosca(id, v, now, signer) ==
                if Window(rs, r, now) > |rs| then Ok(View(Complete(u.c), u.l))
                else Pay(u, v.c.active.value, v.c.finalPayBy.value, signer)
  {
    hide CloseRounds, CatchUp, Complete, Pay, SavingsOk, DefaultsOk, BooksOk, Tally, ScheduleFor, OrderAt, DueAt, Solvent, Published;
    AfterMissedRuns(id, v, now, rs, r);
    CatchUpClosedForm(id, v, now, rs, r);
  }

  lemma TwoMembers(id: RoscaId, c: Circle, l: Ledger, rs: seq<RoundInfo>, r: nat, signer: Account)
    requires Running(id, c, l, rs, r) && MayContribute(c, signer)
    ensures |rs| >= 2
  {
    hide Positioned, Collecting, SavingsOk, DefaultsOk, BooksOk, Tally, Published, Solvent;
    LateMembers(c, Terms(c).frequency, rs, r);
    RunningSchedule(id, c, l, rs, r);
    ScheduleSize(rs, c.Members(), Terms(c).frequency);
    TwoAtLeast(c.Members(), signer, c.claimant.value);
  }

  lemma TwoAtLeast(s: set<Account>, a: Account, b: Account)
    requires a in s && b in s && a != b
    ensures |s| >= 2
  {
    SubsetCard({a, b}, s);
  }

  /** A contribution to a running circle succeeds exactly when the member may contribute and either the last
      deadline has passed or the member can pay once the missed rounds are closed. It keeps the circle well. */
  lemma ContributeRuns(id: RoscaId, v: View, now: u64, signer: Account, rs: seq<RoundInfo>, r: nat)
    requires Running(id, v.c, v.l, rs, r) && 1 <= r <= |rs|
    ensures ContributeToRosca(id, v, now, signer).Ok? <==>
              && MayContribute(v.c, signer)
              && (Window(rs, r, now) <= |rs| ==>
                    AfterMissed(id, v, now, rs, r).l.Balance(Terms(v.c).asset, signer) >= Terms(v.c).amount)
    ensures ContributeToRosca(id, v, now, signer).Ok? ==>
              var u := ContributeToRosca(id, v, now, signer).value;
              Started(id, u.c, u.l, rs)
  {
    hide Running, CloseRounds, Complete, Pay, Started, ContributeToRosca, Ledger.Balance, AfterMissed, Finished;
    AfterMissedRuns(id, v, now, rs, r);
    ContributeIs(id, v, now, signer, rs, r);
    var w, u := Window(rs, r, now), AfterMissed(id, v, now, rs, r);
    RunningTerms(id, v.c, v.l, rs, r);
    RunningTerms(id, u.c, u.l, rs, w);
    if MayContribute(v.c, signer) {
      if w > |rs| {
        CompleteFinishes(id, u.c, u.l, rs);
        FinishedIsStarted(id, Complete(u.c), u.l, rs);
      } else {
        TwoMembers(id, v.c, v.l, rs, r, signer);
        PayRuns(id, u, rs, w, signer);
      }
    }
  }

  lemma RunningTerms(id: RoscaId, c: Circle, l: Ledger, rs: seq<RoundInfo>, r: nat)
    requires Running(id, c, l, rs, r)
    ensures HasTerms(c) && c.active == Some(Terms(c))
  {
  }

  // ---------- the two ways to end a round ----------

  lemma {:induction false} SettleIdle(id: RoscaId, d: Details, r: Account, v: View, ps: seq<Account>)
    requires forall p :: p in ps ==> p == r || p in v.c.contributors
    ensures Settle(id, d, r, v, ps) == Ok(v)
  {
    if ps != [] {
      SettleIdle(id, d, r, v, ps[..|ps| - 1]);
    }
  }

  lemma LastOneOut(c: Circle, f: pos64, rs: seq<RoundInfo>, r: nat)
    requires Positioned(c, f, rs, r) && c.contributors <= c.Members() && |c.contributors| == |rs| - 1
    ensures c.claimant.Some? && c.claimant.value in c.Members() && c.order.Some? && Distinct(c.order.value)
    ensures c.claimant.value !in c.contributors ==> forall p :: p in c.order.value ==> p == c.claimant.value || p in c.contributors
    ensures c.claimant.value in c.contributors ==> exists p :: p in c.order.value && p != c.claimant.value && p !in c.contributors
  {
    hide Positioned;
    PositionedLists(c, f, rs, r);
    var x, order, m := c.claimant.value, c.order.value, c.Members();
    LeftOver(m, c.contributors, x);
    var late := (m - {x}) - (c.contributors - {x});
    if x in c.contributors {
      assert late != {};
      var p :| p in late;
      assert p in order;
    } else {
      assert late == {};
      forall p | p in order ensures p == x || p in c.contributors {
        assert p in m && p !in late;
      }
    }
  }

  /** When n - 1 contributions are in, the defaulter loop has nothing to do if and only if
      the claimant is not among the contributors. */
  lemma NothingLeftIff(id: RoscaId, c: Circle, l: Ledger, rs: seq<RoundInfo>, r: nat)
    requires Ending(id, c, l, rs, r) && c.contributors <= c.Members() && |c.contributors| == |rs| - 1
    ensures c.claimant.Some?
    ensures ProcessDefaulters(id, View(c, l)) == Ok(View(c, l)) <==> c.claimant.value !in c.contributors
  {
    hide Positioned, SavingsOk, DefaultsOk, BooksOk, Tally, Sum, Published, Ledger.Balance, Settle, Solvent;
    LastOneOut(c, Terms(c).frequency, rs, r);
    var d, x, order, v := Terms(c), c.claimant.value, c.order.value, View(c, l);
    if x !in c.contributors {
      SettleIdle(id, d, x, v, order);
    } else {
      var p :| p in order && p != x && p !in c.contributors;
      SomebodyLate(id, d, x, v, order, p);
    }
  }

  lemma SomebodyLate(id: RoscaId, d: Details, x: Account, v: View, order: seq<Account>, p: Account)
    requires HasTerms(v.c) && d == Terms(v.c) && Solvent(id, v.c, v.l) && x != Pot(id) && Distinct(order)
    requires p in order && p != x && p !in v.c.contributors
    ensures Settle(id, d, x, v, order) != Ok(v)
  {
    hide Sum, Moved, Ledger.Balance, Tally, Settle, Dues, DepositsSettled, DefaultsSettled;
    SettleClosedForm(id, d, x, v, order);
    var c' := Settle(id, d, x, v, order).value.c;
    var late := Late(v.c, x, order);
    assert p in late;
    assert Tally(c'.log, Covered(p, x)) + Tally(c'.log, Missed(p, x)) == Tally(v.c.log, Covered(p, x)) + Tally(v.c.log, Missed(p, x)) + 1;
  }

  /** Everything the two ways of ending the last round must agree on. */
  ghost predicate SameOutcome(c: Circle, c': Circle) {
    && c'.completed == c.completed && c'.active == c.active && c'.pending == c.pending
    && c'.participants == c.participants && c'.invited == c.invited && c'.finalPayBy == c.finalPayBy
    && c'.deposits == c.deposits && c'.defaults == c.defaults
  }

  /** When everyone but the claimant has paid, ending the round inline and ending it at its deadline are the
      same: on all storage before the last round, and on phase, deposits, defaults and ledger in the last. */
  lemma InlineIsDeadline(id: RoscaId, c: Circle, l: Ledger, rs: seq<RoundInfo>, r: nat)
    requires Ending(id, c, l, rs, r) && c.contributors <= c.Members() && |c.contributors| == |rs| - 1
    requires c.claimant.Some? && c.claimant.value !in c.contributors
    ensures c.order.Some? && c.nextPayBy.Some? && c.finalPayBy.Some?
    ensures var inline := FinishRound(c, Terms(c), c.order.value, c.nextPayBy.value, c.finalPayBy.value);
            var v := CloseRound(id, View(c, l));
            && inline.Ok? && v.Ok? && v.value.l == l
            && CheckAndComplete(v.value.c).Ok?
            && CheckAndComplete(v.value.c).value.done == (r == |rs|)
            && (r < |rs| ==> CheckAndComplete(v.value.c).value.c == inline.value)
            && (r == |rs| ==> SameOutcome(CheckAndComplete(v.value.c).value.c, inline.value))
  {
    hide DueAt, SavingsOk, DefaultsOk, BooksOk, Tally, Sum, Published, Ledger.Balance, ScheduleFor, OrderAt, FinishRound,
      AdvanceRound, CheckAndComplete, ProcessDefaulters, Solvent, Running;
    NothingLeftIff(id, c, l, rs, r);
    FinishOnTrack(c, Terms(c), rs, r);
    AdvanceOnTrack(c, Terms(c).frequency, rs, r);
    MoveOn(id, c, l, rs, r);
    CheckRunning(id, AdvanceRound(c).value, l, rs, r + 1);
  }
}

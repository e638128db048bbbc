/** What a reader of the indexer may rely on after every run. */
module IndexerTheorems {
  import opened Prelude
  import opened Storage
  import opened Journal
  import opened Schedule
  import opened Rota
  import opened Accounts
  import opened Circles
  import opened Deadlines
  import opened Membership
  import opened Chronicle
  import opened Projection
  import opened Mirror
  import opened Accounting
  import opened Runs
  import opened Agreement
  import opened Theorems

  /** The round the indexer shows: none before the start; the scheduled round that the stored deadline belongs to while
      that is not past the final one, and round n in a circle completed so; otherwise round n + 1 and the first recipient. */
  ghost predicate ShowsRound(x: RoscaEntity, c: Circle, rs: seq<RoundInfo>) {
    var k := x.currentRoundNumber;
    if c.pending.Some? then k == 0 && x.currentRecipient.None?
    else
      && |rs| > 0 && c.nextPayBy.Some? && c.finalPayBy.Some?
      && if c.nextPayBy.value <= c.finalPayBy.value then
           && 1 <= k <= |rs| && (c.completed ==> k == |rs|)
           && x.currentRecipient == Some(rs[k - 1].recipient) && c.nextPayBy.value == rs[k - 1].cutoff
         else c.completed && k == |rs| + 1 && x.currentRecipient == Some(rs[0].recipient)
  }

  lemma RunningShows(id: RoscaId, c: Circle, l: Ledger, rs: seq<RoundInfo>, x: RoscaEntity)
    requires Running(id, c, l, rs, x.currentRoundNumber) && 1 <= x.currentRoundNumber <= |rs| && x.currentRecipient == c.claimant
    ensures ShowsRound(x, c, rs)
  {
    hide SavingsOk, Solvent, DefaultsOk, BooksOk, Tally, OrderAt, ScheduleFor, Published;
    ClaimantIsScheduled(c, Terms(c).frequency, rs, x.currentRoundNumber);
    RunningDue(id, c, l, rs, x.currentRoundNumber);
  }

  lemma FinishedShows(id: RoscaId, c: Circle, l: Ledger, rs: seq<RoundInfo>, x: RoscaEntity)
    requires Finished(id, c, l, rs) && x.currentRoundNumber == Tally(c.log, RoundStarts) && x.currentRecipient == c.claimant
    ensures ShowsRound(x, c, rs)
  {
    hide SavingsOk, Solvent, DefaultsOk, BooksOk, Tally, OrderAt, Published;
    ClaimantIsScheduled(c, Terms(c).frequency, rs, x.currentRoundNumber);
  }

  lemma PendingShows(cfg: Config, id: RoscaId, c: Circle, l: Ledger, x: RoscaEntity)
    requires PendingOk(cfg, id, c, l) && c.pending.Some? && x.currentRoundNumber == Tally(c.log, RoundStarts) && x.currentRecipient == c.claimant
    ensures ShowsRound(x, c, Published(c.log))
  {
    hide SavingsOk, Solvent, DefaultsOk, Seating, Tally, Published;
  }

  /** The circle entity agrees with storage and shows the right round, and every round entity agrees with the log. */
  lemma IndexerAgrees(w0: World, ms: seq<Move>, w: World, id: RoscaId)
    requires Reached(w0, ms, w) && w.Has(id)
    ensures var c := w.At(id);
            && EntityAgrees(Project(c.log), c, Tally(c.log, RoundStarts))
            && ShowsRound(Project(c.log).rosca.value, c, Published(c.log))
            && RoundsAgree(c.log, Project(c.log).rounds, Published(c.log))
  {
    hide Well, RoundsAgree, Orderly, Project, Tally, Published, ShowsRound, PendingOk, Running, Finished;
    ReachedSound(w0, ms, w);
    var c := w.At(id);
    assert Mirrored(c);
    RoundsProjected(c.log);
    WellCases(w.cfg, id, c, w.ledger);
    var x, rs := Project(c.log).rosca.value, Published(c.log);
    if c.pending.Some? {
      PendingShows(w.cfg, id, c, w.ledger, x);
    } else if c.active.Some? {
      RunningShows(id, c, w.ledger, rs, x);
    } else {
      FinishedShows(id, c, w.ledger, rs, x);
    }
  }

  /** The lists of a closed round cover exactly the expected contributors, unless the recipient paid themself. */
  lemma ClosedListsIff(log: seq<Event>, members: set<Account>, x: RoundEntity, i: RoundInfo)
    requires RoundAgrees(log, x, i) && Closed(log, members, i.recipient)
    requires Elems(i.expected) == members - {i.recipient}
    ensures Elems(x.actual) + Elems(x.defaulters) == Elems(x.expected) <==> Tally(log, Paid(i.recipient, i.recipient)) == 0
  {
    var r := i.recipient;
    if Tally(log, Paid(r, r)) == 0 {
      NobodyEscapesIff(log, members, r);
      ListsCover(log, members, x, i);
    } else {
      assert r in x.actual;
      assert r in Elems(x.actual) + Elems(x.defaulters);
      assert r !in Elems(x.expected);
    }
  }

  lemma ListsCover(log: seq<Event>, members: set<Account>, x: RoundEntity, i: RoundInfo)
    requires RoundAgrees(log, x, i) && Closed(log, members, i.recipient)
    requires Tally(log, Paid(i.recipient, i.recipient)) == 0
    requires forall p :: p in members && p != i.recipient ==> Marks(log, p, i.recipient) == 1
    ensures Elems(x.actual) + Elems(x.defaulters) == members - {i.recipient}
  {
    hide Tally, Escaped, SelfPaidOut;
    var r := i.recipient;
    forall p ensures p in Elems(x.actual) + Elems(x.defaulters) <==> p in members - {r} {
      assert Marks(log, p, r) <= If(p in members);
      if p in members && p != r {
        assert Marks(log, p, r) == 1;
      }
    }
  }

  /** Where a started circle's rounds stand in the books. */
  lemma StartedBooks(cfg: Config, id: RoscaId, c: Circle, l: Ledger)
    requires Well(cfg, id, c, l) && c.pending.None?
    ensures var rs, r := Published(c.log), Tally(c.log, RoundStarts);
            && HasTerms(c) && ScheduleFor(rs, c.Members(), Terms(c).frequency)
            && (c.completed ==> BooksOk(c.log, c.Members(), {}, rs, |rs| + 1))
            && (!c.completed ==> BooksOk(c.log, c.Members(), c.contributors, rs, r))
            && (forall p :: c.Defaults(p) == Tally(c.log, MissedBy(p)))
  {
    hide SavingsOk, Solvent, BooksOk, Tally, Published, OrderAt, ScheduleFor, DueAt, Collecting;
  }

  /** Round k is over: the circle is completed, or it is running in a later round. */
  ghost predicate RoundOver(c: Circle, k: nat) {
    1 <= k <= |Published(c.log)| && (c.completed || k < Tally(c.log, RoundStarts))
  }

  lemma OverIsClosed(cfg: Config, id: RoscaId, c: Circle, l: Ledger, k: nat)
    requires Well(cfg, id, c, l) && c.pending.None? && RoundOver(c, k)
    ensures HasTerms(c) && ScheduleFor(Published(c.log), c.Members(), Terms(c).frequency)
    ensures Closed(c.log, c.Members(), Published(c.log)[k - 1].recipient)
  {
    hide Well, Tally, Published, Closed, Open, ScheduleFor;
    StartedBooks(cfg, id, c, l);
    var rs, i := Published(c.log), k - 1;
    assert RoundState(c.log, c.Members(), if c.completed then {} else c.contributors, rs[i].recipient, i + 1,
                      if c.completed then |rs| + 1 else Tally(c.log, RoundStarts));
  }

  /** In every reachable state, for every round that is over: the indexer's contributors and defaulters are together
      exactly the expected contributors if and only if the recipient did not pay into that round. */
  lemma ClosedRoundsAgree(w0: World, ms: seq<Move>, w: World, id: RoscaId, k: nat)
    requires Reached(w0, ms, w) && w.Has(id) && w.At(id).pending.None? && RoundOver(w.At(id), k)
    ensures var c := w.At(id);
            var rounds, r := Project(c.log).rounds, Published(c.log)[k - 1].recipient;
            && k in rounds && rounds[k].recipient == r
            && (Elems(rounds[k].actual) + Elems(rounds[k].defaulters) == Elems(rounds[k].expected) <==> Tally(c.log, Paid(r, r)) == 0)
  {
    hide Well, Mirrored, Project, Tally, Published, Closed, EntityAgrees;
    ReachedSound(w0, ms, w);
    var c := w.At(id);
    IndexerAgrees(w0, ms, w, id);
    OverIsClosed(w.cfg, id, c, w.ledger, k);
    ClosedListsIff(c.log, c.Members(), Project(c.log).rounds[k], Published(c.log)[k - 1]);
  }

  // ---------- default counts ----------

  /** In how many of the first k round entities p is listed as a defaulter. */
  ghost function Listings(rounds: map<nat, RoundEntity>, p: Account, k: nat): nat
    requires forall j :: 1 <= j <= k ==> j in rounds
  {
    if k == 0 then 0 else Listings(rounds, p, k - 1) + If(p in rounds[k].defaulters)
  }

  lemma MissedAtMostOnce(log: seq<Event>, members: set<Account>, contributors: set<Account>, x: Account, k: nat, r: nat, p: Account)
    requires RoundState(log, members, contributors, x, k, r)
    ensures Tally(log, Missed(p, x)) <= 1
  {
    hide Tally;
    if k < r {
      assert Marks(log, p, x) <= If(p in members);
    }
  }

  lemma {:induction false} ListingsAreDefaults(log: seq<Event>, members: set<Account>, contributors: set<Account>, r: nat,
                                               rounds: map<nat, RoundEntity>, rs: seq<RoundInfo>, p: Account, k: nat)
    requires RoundsAgree(log, rounds, rs) && BooksOk(log, members, contributors, rs, r) && k <= |rs|
    ensures Listings(rounds, p, k) == OverRounds(log, ByDefault, p, rs, k)
  {
    hide Tally, RoundState;
    if k > 0 {
      ListingsAreDefaults(log, members, contributors, r, rounds, rs, p, k - 1);
      var i := k - 1;
      assert RoundState(log, members, contributors, rs[i].recipient, i + 1, r);
      MissedAtMostOnce(log, members, contributors, rs[i].recipient, k, r, p);
      assert RoundAgrees(log, rounds[k], rs[k - 1]);
    }
  }

  /** In every reachable state the number of rounds that list an account as a defaulter is its default count. */
  lemma DefaultersCounted(w0: World, ms: seq<Move>, w: World, id: RoscaId, p: Account)
    requires Reached(w0, ms, w) && w.Has(id) && w.At(id).pending.None?
    ensures var c := w.At(id);
            var rounds, n := Project(c.log).rounds, |Published(c.log)|;
            (forall j :: 1 <= j <= n ==> j in rounds) && Listings(rounds, p, n) == c.Defaults(p)
  {
    hide Well, Orderly, Project, Tally, Published, RoundAgrees, EntityAgrees, BooksOk, Listings, OverRounds;
    ReachedSound(w0, ms, w);
    var c := w.At(id);
    assert Mirrored(c);
    IndexerAgrees(w0, ms, w, id);
    StartedBooks(w.cfg, id, c, w.ledger);
    var rs := Published(c.log);
    TotalsAreSums(c.log, ByDefault, p);
    ListingsAreDefaults(c.log, c.Members(), if c.completed then {} else c.contributors,
                        if c.completed then |rs| + 1 else Tally(c.log, RoundStarts), Project(c.log).rounds, rs, p, |rs|);
  }
}

/** Who is accounted for in which round, read off the event log. */
module Accounts {
  import opened Prelude
  import opened Storage
  import opened Journal
  import opened Schedule
  import opened Settlement
  import opened Rota

  /** The round that pays r is running: exactly the contributors have been marked, once each. A round still to come is open with no contributors. */
  ghost predicate Open(log: seq<Event>, r: Account, contributors: set<Account>) {
    && Tally(log, PaidTo(r)) == |contributors|
    && forall p ::
         && Tally(log, Paid(p, r)) == If(p in contributors)
         && Tally(log, Covered(p, r)) == Tally(log, Missed(p, r)) == Tally(log, Docked(p, r)) == 0
  }

  /** The members other than r that the round paying r left unaccounted for. */
  ghost function Escaped(log: seq<Event>, members: set<Account>, r: Account): set<Account> {
    set p | p in members && p != r && Marks(log, p, r) == 0
  }

  /** r paid into the round that pays r, and that contribution was one of the n - 1 that ended it. */
  ghost predicate SelfPaidOut(log: seq<Event>, members: set<Account>, r: Account) {
    Tally(log, Paid(r, r)) == 1 && Tally(log, PaidTo(r)) == |members| - 1
  }

  /** The round that pays r is over: nobody is accounted for twice, and nobody is left out, except
      that exactly one member is when r's own contribution helped to end it. */
  ghost predicate Closed(log: seq<Event>, members: set<Account>, r: Account) {
    && (forall p :: Marks(log, p, r) <= If(p in members))
    && (forall p :: Tally(log, Docked(p, r)) > 0 ==> p != r && Tally(log, Covered(p, r)) + Tally(log, Missed(p, r)) == 1)
    && (forall p :: Tally(log, Covered(p, r)) > 0 ==> Tally(log, Docked(p, r)) > 0)
    && Tally(log, Covered(r, r)) == Tally(log, Missed(r, r)) == 0
    && |Escaped(log, members, r)| == If(SelfPaidOut(log, members, r))
  }

  /** Where the k-th round stands while round r is running. */
  ghost predicate RoundState(log: seq<Event>, members: set<Account>, contributors: set<Account>, x: Account, k: nat, r: nat) {
    if k < r then Closed(log, members, x)
    else if k == r then Open(log, x, contributors)
    else Open(log, x, {})
  }

  ghost predicate BooksOk(log: seq<Event>, members: set<Account>, contributors: set<Account>, rs: seq<RoundInfo>, r: nat) {
    forall k :: 0 <= k < |rs| ==> RoundState(log, members, contributors, rs[k].recipient, k + 1, r)
  }

  // ---------- what does not concern a round leaves it alone ----------

  ghost predicate SameFor(log: seq<Event>, log': seq<Event>, r: Account) {
    && Tally(log', PaidTo(r)) == Tally(log, PaidTo(r))
    && (forall p :: Tally(log', Paid(p, r)) == Tally(log, Paid(p, r)))
    && (forall p :: Tally(log', Covered(p, r)) == Tally(log, Covered(p, r)))
    && (forall p :: Tally(log', Missed(p, r)) == Tally(log, Missed(p, r)))
    && (forall p :: Tally(log', Docked(p, r)) == Tally(log, Docked(p, r)))
  }

  lemma SameForKeeps(log: seq<Event>, log': seq<Event>, members: set<Account>, contributors: set<Account>, x: Account, k: nat, r: nat)
    requires SameFor(log, log', x)
    requires RoundState(log, members, contributors, x, k, r)
    ensures RoundState(log', members, contributors, x, k, r)
  {
    hide Tally;
    assert forall p :: Marks(log', p, x) == Marks(log, p, x);
    assert Escaped(log', members, x) == Escaped(log, members, x);
  }

  lemma BooksSame(log: seq<Event>, log': seq<Event>, members: set<Account>, contributors: set<Account>, rs: seq<RoundInfo>, r: nat)
    requires BooksOk(log, members, contributors, rs, r)
    requires forall k :: 0 <= k < |rs| ==> SameFor(log, log', rs[k].recipient)
    ensures BooksOk(log', members, contributors, rs, r)
  {
    hide RoundState, SameFor;
    forall k | 0 <= k < |rs| ensures RoundState(log', members, contributors, rs[k].recipient, k + 1, r) {
      SameForKeeps(log, log', members, contributors, rs[k].recipient, k + 1, r);
    }
  }

  // ---------- a round ends ----------

  /** The round that pays r, once its late members have been settled. */
  ghost predicate Resolved(log: seq<Event>, r: Account, contributors: set<Account>, late: set<Account>) {
    && Tally(log, PaidTo(r)) == |contributors|
    && (forall p :: Tally(log, Paid(p, r)) == If(p in contributors))
    && (forall p :: Tally(log, Covered(p, r)) + Tally(log, Missed(p, r)) == If(p in late))
    && (forall p :: Tally(log, Docked(p, r)) > 0 ==> p in late)
    && (forall p :: Tally(log, Covered(p, r)) > 0 ==> Tally(log, Docked(p, r)) > 0)
  }

  lemma SettledResolves(c: Circle, c': Circle, amount: u32, r: Account, late: set<Account>)
    requires Open(c.log, r, c.contributors) && LogSettled(amount, r, c, c', late) && amount > 0
    ensures Resolved(c'.log, r, c.contributors, late)
  {
    hide Tally;
  }

  lemma ResolvedMarks(log: seq<Event>, r: Account, contributors: set<Account>, late: set<Account>)
    requires Resolved(log, r, contributors, late) && late !! contributors
    ensures forall p :: Marks(log, p, r) == If(p in late + contributors)
  {
    hide Tally;
  }

  lemma ResolvedCloses(log: seq<Event>, members: set<Account>, r: Account, contributors: set<Account>, late: set<Account>)
    requires Resolved(log, r, contributors, late) && r in members
    requires late == members - {r} - contributors && contributors <= members
    requires contributors == {} || |contributors| < |members| - 1
    ensures Closed(log, members, r)
  {
    ResolvedMarks(log, r, contributors, late);
    hide Tally, Marks;
    assert Escaped(log, members, r) == {};
    assert r !in late;
  }

  /** At the deadline: settling everyone late accounts for everyone. */
  lemma CloseByDeadline(c: Circle, c': Circle, amount: u32, r: Account, late: set<Account>)
    requires Open(c.log, r, c.contributors) && LogSettled(amount, r, c, c', late) && amount > 0
    requires Collecting(c, |c.Members()|) && r in c.Members()
    requires late == c.Members() - {r} - c.contributors
    ensures Closed(c'.log, c.Members(), r)
  {
    SettledResolves(c, c', amount, r, late);
    hide Resolved, Closed;
    ResolvedCloses(c'.log, c.Members(), r, c.contributors, late);
  }

  /** Before the deadline: n - 1 contributions account for everyone, unless one of them is r's own. */
  lemma CloseByCount(log: seq<Event>, members: set<Account>, contributors: set<Account>, r: Account)
    requires Open(log, r, contributors)
    requires contributors <= members && |contributors| == |members| - 1 && r in members
    ensures Closed(log, members, r)
  {
    hide Tally;
    assert forall p :: Marks(log, p, r) == If(p in contributors);
    hide Marks;
    assert Escaped(log, members, r) == (members - {r}) - (contributors - {r});
    LeftOver(members, contributors, r);
  }

  /** Leaving r out on both sides, n - 1 of n members miss nobody, or exactly one when r is among them. */
  lemma LeftOver(members: set<Account>, contributors: set<Account>, r: Account)
    requires contributors <= members && |contributors| == |members| - 1 && r in members
    ensures |(members - {r}) - (contributors - {r})| == If(r in contributors)
  {
    SubsetCard(contributors - {r}, members - {r});
  }

  lemma SettledElsewhere(c: Circle, c': Circle, amount: u32, r: Account, late: set<Account>, x: Account)
    requires LogSettled(amount, r, c, c', late) && x != r
    ensures SameFor(c.log, c'.log, x)
  {
    hide Tally;
  }

  /** From round r to round r + 1: round r is over, the next one opens with no contributors. */
  lemma BooksAdvance(log: seq<Event>, members: set<Account>, contributors: set<Account>, rs: seq<RoundInfo>, f: pos64, r: nat, log': seq<Event>)
    requires ScheduleFor(rs, members, f) && 1 <= r <= |rs|
    requires BooksOk(log, members, contributors, rs, r)
    requires Closed(log', members, rs[r - 1].recipient)
    requires forall x :: x != rs[r - 1].recipient ==> SameFor(log, log', x)
    ensures BooksOk(log', members, {}, rs, r + 1)
  {
    hide Closed, Open, SameFor;
    forall k | 0 <= k < |rs| ensures RoundState(log', members, {}, rs[k].recipient, k + 1, r + 1) {
      if k != r - 1 {
        assert Recipients(rs)[k] != Recipients(rs)[r - 1];
        SameForKeeps(log, log', members, contributors, rs[k].recipient, k + 1, r);
      }
    }
  }
}

/** The indexer as it runs: handlers that load, change and save entities, one event at a time. */
module Indexer {
  import opened Prelude
  import opened Storage
  import opened Stores
  import opened Rules
  import opened Journal
  import opened Schedule
  import opened Chronicle
  import opened Projection
  import opened Mirror

  /** Which eligibilities have a joining time. */
  ghost function Joined(m: map<Account, Option<u64>>): map<Account, bool> {
    map a | a in m :: m[a].Some?
  }

  /** What a query by recipient with limit 1 may return. */
  ghost predicate Found(rounds: map<nat, RoundEntity>, r: Account, k: Option<nat>) {
    && (k.Some? ==> k.value in rounds && rounds[k.value].recipient == r)
    && (k.None? ==> forall i :: i in rounds ==> rounds[i].recipient != r)
  }

  ghost predicate OneRoundEach(rounds: map<nat, RoundEntity>) {
    forall i, j :: i in rounds && j in rounds && rounds[i].recipient == rounds[j].recipient ==> i == j
  }

  lemma FoundIsFindRound(rounds: map<nat, RoundEntity>, r: Account, k: Option<nat>)
    requires OneRoundEach(rounds) && Found(rounds, r, k)
    ensures k == FindRound(rounds, r)
  {
  }

  class EventIndexer {
    var roscas: map<RoscaId, RoscaEntity>
    var rounds: map<RoscaId, map<nat, RoundEntity>>
    var eligibilities: map<RoscaId, map<Account, Option<u64>>>
    var securityDeposits: map<RoscaId, map<Account, nat>>
    var accounts: set<Account>

    /** The entities of one circle. */
    ghost function At(id: RoscaId): Index
      reads this
    {
      Index(Find(roscas, id), Get(rounds, id, map[]), Joined(Get(eligibilities, id, map[])), Get(securityDeposits, id, map[]))
    }

    constructor ()
      ensures forall id :: At(id) == NO_INDEX
      ensures accounts == {}
    {
      roscas, rounds, eligibilities, securityDeposits, accounts := map[], map[], map[], map[], {};
    }

    method HandleRoscaCreated(id: RoscaId, details: Details, eligible: seq<Account>, creator: Account, time: u64)
      modifies this
      ensures At(id) == Apply(old(At(id)), RoscaCreated(details, eligible, creator))
      ensures forall j: RoscaId :: j != id ==> At(j) == old(At(j))
      ensures accounts == old(accounts) + (set a | a in eligible)
      ensures creator in eligible ==> Get(Get(eligibilities, id, map[]), creator, None) == Some(time)
    {
      hide Joined, Enrolled;
      roscas := roscas[id := RoscaEntity(details, creator, eligible, [creator], false, None, None, 0, None, 0)];
      EnrolAll(id, eligible, creator, time);
      EnrolledIs(Get(eligibilities, id, map[]), Get(old(eligibilities), id, map[]), eligible, creator);
    }

    method EnrolAll(id: RoscaId, eligible: seq<Account>, creator: Account, time: u64)
      modifies this`eligibilities, this`accounts
      ensures forall j: RoscaId :: j != id ==> Get(eligibilities, j, map[]) == Get(old(eligibilities), j, map[])
      ensures Enrolled(Get(eligibilities, id, map[]), Get(old(eligibilities), id, map[]), eligible, creator)
      ensures creator in eligible ==> Get(Get(eligibilities, id, map[]), creator, None) == Some(time)
      ensures accounts == old(accounts) + (set a | a in eligible)
    {
      hide Enrolled;
      ghost var before := Get(eligibilities, id, map[]);
      NobodyEnrolled(before, creator);
      for i := 0 to |eligible|
        invariant forall j: RoscaId :: j != id ==> Get(eligibilities, j, map[]) == Get(old(eligibilities), j, map[])
        invariant Enrolled(Get(eligibilities, id, map[]), before, eligible[..i], creator)
        invariant creator in eligible[..i] ==> Get(Get(eligibilities, id, map[]), creator, None) == Some(time)
        invariant accounts == old(accounts) + (set a | a in eligible[..i])
      {
        var address := eligible[i];
        if address !in accounts {
          accounts := accounts + {address};
        }
        var mine := Get(eligibilities, id, map[]);
        eligibilities := eligibilities[id := mine[address := if address == creator then Some(time) else None]];
        EnrolOne(mine, before, eligible[..i], creator, address, if address == creator then Some(time) else None);
        assert eligible[..i + 1] == eligible[..i] + [address];
      }
      assert eligible[..|eligible|] == eligible;
    }

    method HandleRoscaStarted(id: RoscaId, starter: Account, infos: seq<RoundInfo>, first: Account, cutoff: u64)
      modifies this`roscas, this`rounds
      ensures At(id) == Apply(old(At(id)), RoscaStarted(starter, infos, first, cutoff))
      ensures forall j: RoscaId :: j != id ==> At(j) == old(At(j))
    {
      hide Joined, FreshRound;
      if id in roscas {
        roscas := roscas[id := roscas[id].(startedBy := Some(starter), currentRecipient := Some(first), currentRoundNumber := 1, currentCutoff := Some(cutoff))];
      }
      ghost var saved := roscas;
      for i := 0 to |infos|
        invariant roscas == saved
        invariant Get(rounds, id, map[]) == WithRounds(Get(old(rounds), id, map[]), infos[..i])
        invariant forall j: RoscaId :: j != id ==> Get(rounds, j, map[]) == Get(old(rounds), j, map[])
      {
        var mine := Get(rounds, id, map[]);
        rounds := rounds[id := mine[infos[i].number := FreshRound(infos[i])]];
        assert infos[..i + 1][..i] == infos[..i];
      }
      assert infos[..|infos|] == infos;
    }

    /** A query by circle and recipient with limit 1: any match will do. */
    method FindByRecipient(id: RoscaId, r: Account) returns (k: Option<nat>)
      ensures Found(At(id).rounds, r, k)
    {
      var mine := Get(rounds, id, map[]);
      var keys := mine.Keys;
      while keys != {}
        invariant keys <= mine.Keys
        invariant forall i :: i in mine.Keys - keys ==> mine[i].recipient != r
        decreases keys
      {
        var i :| i in keys;
        if mine[i].recipient == r { return Some(i); }
        keys := keys - {i};
      }
      return None;
    }

    /** The common body of the handlers for contributions and deductions. */
    method AddContributor(id: RoscaId, p: Account, r: Account)
      modifies this`rounds
      ensures exists k :: Found(old(At(id)).rounds, r, k) && At(id) == old(At(id)).(rounds := WithActual(old(At(id)).rounds, k, p))
      ensures OneRoundEach(old(At(id)).rounds) ==>
                At(id) == old(At(id)).(rounds := WithActual(old(At(id)).rounds, FindRound(old(At(id)).rounds, r), p))
      ensures forall j: RoscaId :: j != id ==> At(j) == old(At(j))
    {
      hide Joined, FindRound, OneRoundEach;
      var k := FindByRecipient(id, r);
      if OneRoundEach(At(id).rounds) {
        FoundIsFindRound(At(id).rounds, r, k);
      }
      if k.Some? {
        var mine := rounds[id];
        var round := mine[k.value];
        if p !in round.actual {
          rounds := rounds[id := mine[k.value := round.(actual := round.actual + [p])]];
        }
      }
      assert At(id) == old(At(id)).(rounds := WithActual(old(At(id)).rounds, k, p));
    }

    method HandleContributionMade(id: RoscaId, p: Account, r: Account, amount: nat)
      modifies this`rounds
      ensures exists k :: Found(old(At(id)).rounds, r, k) && At(id) == old(At(id)).(rounds := WithActual(old(At(id)).rounds, k, p))
      ensures OneRoundEach(old(At(id)).rounds) ==> At(id) == Apply(old(At(id)), ContributionMade(p, r, amount))
      ensures forall j: RoscaId :: j != id ==> At(j) == old(At(j))
    {
      hide Joined, FindRound, OneRoundEach, WithActual;
      AddContributor(id, p, r);
    }

    method HandleDepositDeducted(id: RoscaId, p: Account, r: Account, amount: nat, sufficient: bool)
      modifies this`rounds
      ensures exists k :: Found(old(At(id)).rounds, r, k) && At(id) == old(At(id)).(rounds := WithActual(old(At(id)).rounds, k, p))
      ensures OneRoundEach(old(At(id)).rounds) ==> At(id) == Apply(old(At(id)), DepositDeducted(p, r, amount, sufficient))
      ensures forall j: RoscaId :: j != id ==> At(j) == old(At(j))
    {
      hide Joined, FindRound, OneRoundEach, WithActual;
      AddContributor(id, p, r);
    }

    method HandleParticipantDefaulted(id: RoscaId, r: Account, p: Account)
      modifies this`rounds
      ensures exists k :: Found(old(At(id)).rounds, r, k) && At(id) == old(At(id)).(rounds := WithDefaulter(old(At(id)).rounds, k, p))
      ensures OneRoundEach(old(At(id)).rounds) ==> At(id) == Apply(old(At(id)), ParticipantDefaulted(r, p))
      ensures forall j: RoscaId :: j != id ==> At(j) == old(At(j))
    {
      hide Joined, FindRound, OneRoundEach;
      var k := FindByRecipient(id, r);
      if OneRoundEach(At(id).rounds) {
        FoundIsFindRound(At(id).rounds, r, k);
      }
      if k.Some? {
        var mine := rounds[id];
        var round := mine[k.value];
        if p !in round.defaulters {
          rounds := rounds[id := mine[k.value := round.(defaulters := round.defaulters + [p])]];
        }
      }
      assert At(id) == old(At(id)).(rounds := WithDefaulter(old(At(id)).rounds, k, p));
    }

    /** Without a block time nothing is recorded. */
    method HandleJoinedRosca(id: RoscaId, p: Account, time: Option<u64>)
      modifies this`roscas, this`eligibilities
      ensures At(id) == if time.Some? then Apply(old(At(id)), JoinedRosca(p)) else old(At(id))
      ensures time.Some? && id in old(roscas) && p in old(At(id)).joined ==> Get(Get(eligibilities, id, map[]), p, None) == time
      ensures forall j: RoscaId :: j != id ==> At(j) == old(At(j))
    {
      if id !in roscas { return; }
      var mine := Get(eligibilities, id, map[]);
      if p !in mine { return; }
      if time.Some? {
        eligibilities := eligibilities[id := mine[p := time]];
        assert Joined(mine[p := time]) == Joined(mine)[p := true];
        var rosca := roscas[id];
        if p !in rosca.active {
          rosca := rosca.(active := [p] + rosca.active);
        }
        roscas := roscas[id := rosca];
      }
    }

    method HandleLeftRosca(id: RoscaId, p: Account)
      modifies this`roscas, this`eligibilities
      ensures At(id) == Apply(old(At(id)), LeftRosca(p))
      ensures forall j: RoscaId :: j != id ==> At(j) == old(At(j))
    {
      if id !in roscas { return; }
      var mine := Get(eligibilities, id, map[]);
      if p !in mine { return; }
      eligibilities := eligibilities[id := mine[p := None]];
      assert Joined(mine[p := None]) == Joined(mine)[p := false];
      roscas := roscas[id := roscas[id].(active := Without(roscas[id].active, p))];
    }

    method HandleRoscaComplete(id: RoscaId)
      modifies this`roscas
      ensures At(id) == Apply(old(At(id)), RoscaComplete)
      ensures forall j: RoscaId :: j != id ==> At(j) == old(At(j))
    {
      hide Joined;
      if id in roscas {
        roscas := roscas[id := roscas[id].(completed := true)];
      }
    }

    method HandleNewRoundStarted(id: RoscaId, r: Account, cutoff: u64)
      modifies this`roscas
      ensures At(id) == Apply(old(At(id)), NewRoundStarted(r, cutoff))
      ensures forall j: RoscaId :: j != id ==> At(j) == old(At(j))
    {
      hide Joined;
      if id !in roscas { return; }
      var x := roscas[id];
      roscas := roscas[id := x.(currentRecipient := Some(r), currentRoundNumber := x.currentRoundNumber + 1,
                                currentCutoff := if x.currentCutoff.None? then None else Some(x.currentCutoff.value + cutoff))];
    }

    /** Does nothing for an account that no circle has announced. */
    method HandleSecurityDepositContribution(id: RoscaId, p: Account, amount: nat)
      modifies this`roscas, this`securityDeposits
      ensures p !in accounts ==> At(id) == old(At(id))
      ensures p in accounts && p in old(At(id)).joined ==> At(id) == Apply(old(At(id)), SecurityDepositContribution(p, amount))
      ensures forall j: RoscaId :: j != id ==> At(j) == old(At(j))
    {
      hide Joined;
      if p !in accounts { return; }
      var mine: map<Account, nat> := Get(securityDeposits, id, map[]);
      if p !in mine {
        securityDeposits := securityDeposits[id := mine[p := amount]];
        if id in roscas {
          roscas := roscas[id := roscas[id].(totalDeposits := roscas[id].totalDeposits + amount)];
        }
        return;
      }
      securityDeposits := securityDeposits[id := mine[p := mine[p] + amount]];
      if id in roscas {
        roscas := roscas[id := roscas[id].(totalDeposits := roscas[id].totalDeposits + amount)];
      }
    }

    /** Does nothing when the claimed amount is not the one on record. */
    method HandleSecurityDepositClaimed(id: RoscaId, p: Account, amount: nat)
      modifies this`roscas, this`securityDeposits
      ensures At(id) == Apply(old(At(id)), SecurityDepositClaimed(p, amount))
      ensures forall j: RoscaId :: j != id ==> At(j) == old(At(j))
    {
      hide Joined;
      var mine: map<Account, nat> := Get(securityDeposits, id, map[]);
      if p !in mine { return; }
      if mine[p] != amount { return; }
      if id in roscas {
        roscas := roscas[id := roscas[id].(totalDeposits := roscas[id].totalDeposits - amount)];
      }
      securityDeposits := securityDeposits[id := mine - {p}];
    }

    /** Every eligibility belongs to a known account. */
    ghost predicate Registered()
      reads this
    {
      forall id: RoscaId, p :: p in At(id).joined ==> p in accounts
    }

    /** Calls the handler of an event, in a block with a known time. */
    method Handle(id: RoscaId, e: Event, time: u64)
      requires OneRoundEach(At(id).rounds) && Registered()
      requires e.SecurityDepositContribution? ==> e.depositor in At(id).joined
      modifies this
      ensures At(id) == Apply(old(At(id)), e) && Registered()
      ensures forall j: RoscaId :: j != id ==> At(j) == old(At(j))
    {
      hide Joined, FindRound, OneRoundEach, WithRounds, Without, WithActual, WithDefaulter;
      match e {
        case RoscaCreated(details, eligible, creator) => HandleRoscaCreated(id, details, eligible, creator, time);
        case JoinedRosca(p) => HandleJoinedRosca(id, p, Some(time));
        case LeftRosca(p) => HandleLeftRosca(id, p);
        case RoscaStarted(starter, infos, first, cutoff) => HandleRoscaStarted(id, starter, infos, first, cutoff);
        case ContributionMade(p, r, amount) => HandleContributionMade(id, p, r, amount);
        case DepositDeducted(p, r, amount, sufficient) => HandleDepositDeducted(id, p, r, amount, sufficient);
        case ParticipantDefaulted(r, p) => HandleParticipantDefaulted(id, r, p);
        case NewRoundStarted(r, cutoff) => HandleNewRoundStarted(id, r, cutoff);
        case RoscaComplete => HandleRoscaComplete(id);
        case SecurityDepositContribution(p, amount) => HandleSecurityDepositContribution(id, p, amount);
        case SecurityDepositClaimed(p, amount) => HandleSecurityDepositClaimed(id, p, amount);
      }
    }

    /** Handles the events of a chain in order; `times[i]` is the time of the block of event i. */
    method Process(events: seq<(RoscaId, Event)>, times: seq<u64>)
      requires |times| == |events|
      requires forall id: RoscaId :: At(id) == NO_INDEX
      requires forall id: RoscaId :: Orderly(LogOf(events, id))
      modifies this
      ensures forall id: RoscaId :: At(id) == Project(LogOf(events, id))
    {
      hide Apply, LogOf, Orderly, OneRoundEach, Project;
      NothingYet();
      for i := 0 to |events|
        invariant forall id: RoscaId :: At(id) == Project(LogOf(events[..i], id))
        invariant Registered()
      {
        var (id, e) := events[i];
        assert events[..i + 1] == events[..i] + [(id, e)];
        LogPush(events[..i], id, e);
        ProjectPush(LogOf(events[..i], id), e);
        OneRoundSoFar(events, i, id);
        DepositorKnown(events, i);
        Handle(id, e, times[i]);
      }
      assert events[..|events|] == events;
    }
  }

  /** The eligibilities after enrolling `ps`. */
  ghost predicate Enrolled(now: map<Account, Option<u64>>, before: map<Account, Option<u64>>, ps: seq<Account>, creator: Account) {
    && now.Keys == before.Keys + (set a | a in ps)
    && (forall a :: a in ps ==> now[a].Some? == (a == creator))
    && (forall a :: a in before && a !in ps ==> now[a] == before[a])
  }

  lemma NobodyEnrolled(before: map<Account, Option<u64>>, creator: Account)
    ensures Enrolled(before, before, [], creator)
  {
  }

  lemma EnrolOne(now: map<Account, Option<u64>>, before: map<Account, Option<u64>>, ps: seq<Account>, creator: Account,
                 p: Account, joinedAt: Option<u64>)
    requires Enrolled(now, before, ps, creator) && joinedAt.Some? == (p == creator)
    ensures Enrolled(now[p := joinedAt], before, ps + [p], creator)
  {
    assert (set a | a in ps + [p]) == (set a | a in ps) + {p};
  }

  lemma EnrolledIs(now: map<Account, Option<u64>>, before: map<Account, Option<u64>>, ps: seq<Account>, creator: Account)
    requires Enrolled(now, before, ps, creator)
    ensures Joined(now) == Joined(before) + (map a | a in ps :: a == creator)
  {
    forall a ensures a in now <==> a in before || a in ps {
      assert a in now.Keys <==> a in before.Keys + (set b | b in ps);
    }
  }

  lemma NothingYet()
    ensures forall id: RoscaId :: Project(LogOf([], id)) == NO_INDEX
  {
  }

  lemma {:induction false} OrderlyPrefix(events: seq<(RoscaId, Event)>, i: nat, id: RoscaId)
    requires i <= |events| && Orderly(LogOf(events, id))
    ensures Orderly(LogOf(events[..i], id))
    decreases |events|
  {
    if i == |events| {
      assert events[..i] == events;
    } else {
      var init, e := events[..|events| - 1], events[|events| - 1];
      if e.0 == id {
        assert LogOf(events, id) == LogOf(init, id) + [e.1];
        OrderlyInit(LogOf(init, id), e.1);
      } else {
        assert LogOf(events, id) == LogOf(init, id) + [] == LogOf(init, id);
      }
      OrderlyPrefix(init, i, id);
      assert init[..i] == events[..i];
    }
  }

  lemma OrderlyInit(log: seq<Event>, e: Event)
    requires Orderly(log + [e])
    ensures Orderly(log)
  {
    assert (log + [e])[..|log|] == log;
  }

  lemma DepositorKnown(events: seq<(RoscaId, Event)>, i: nat)
    requires i < |events| && forall id: RoscaId :: Orderly(LogOf(events, id))
    ensures var (id, e) := events[i]; e.SecurityDepositContribution? ==> e.depositor in Project(LogOf(events[..i], id)).joined
  {
    hide Orderly, Project, LogOf, Eligible;
    var (id, e) := events[i];
    var log := LogOf(events[..i], id);
    OrderlyPrefix(events, i + 1, id);
    assert events[..i + 1] == events[..i] + [(id, e)];
    LogPush(events[..i], id, e);
    LastFollows(log, e);
    JoinedIsEligible(log);
  }

  lemma LastFollows(log: seq<Event>, e: Event)
    requires Orderly(log + [e])
    ensures Orderly(log) && (e.SecurityDepositContribution? ==> e.depositor in Eligible(log))
  {
    hide Tally, Published;
    assert (log + [e])[..|log|] == log;
  }

  /** Recipients of an orderly log are distinct, so at no point can a query match two rounds. */
  lemma OneRoundSoFar(events: seq<(RoscaId, Event)>, i: nat, id: RoscaId)
    requires i <= |events| && Orderly(LogOf(events, id))
    ensures OneRoundEach(Project(LogOf(events[..i], id)).rounds)
  {
    hide Apply, Tally, OneRoundEach, RoundsAgree;
    OrderlyPrefix(events, i, id);
    var log := LogOf(events[..i], id);
    RoundsProjected(log);
    if Published(log) != [] {
      TotalsAreSums(log, ByPaying, Pot(id));
    }
    DistinctRounds(log, Project(log).rounds, Published(log));
  }

  lemma DistinctRounds(log: seq<Event>, rounds: map<nat, RoundEntity>, rs: seq<RoundInfo>)
    requires RoundsAgree(log, rounds, rs) && Distinct(Recipients(rs))
    ensures OneRoundEach(rounds)
  {
    hide Tally;
    forall a, b | a in rounds && b in rounds && rounds[a].recipient == rounds[b].recipient ensures a == b {
      var j, k := a - 1, b - 1;
      assert RoundAgrees(log, rounds[a], rs[j]) && RoundAgrees(log, rounds[b], rs[k]);
      assert Recipients(rs)[j] == Recipients(rs)[k];
    }
  }
}

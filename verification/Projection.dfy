/** The indexer's view of one circle, folded from the circle's events. */
module Projection {
  import opened Prelude
  import opened Storage
  import opened Rules
  import opened Journal
  import opened Schedule
  import opened Circles
  import opened Chronicle

  datatype RoscaEntity = RoscaEntity(
    details: Details,
    creator: Account,
    eligible: seq<Account>,
    active: seq<Account>,
    completed: bool,
    startedBy: Option<Account>,
    currentRecipient: Option<Account>,
    currentRoundNumber: nat,
    currentCutoff: Option<nat>,
    totalDeposits: int)

  datatype RoundEntity = RoundEntity(
    number: nat,
    cutoff: u64,
    expected: seq<Account>,
    recipient: Account,
    defaulters: seq<Account>,
    actual: seq<Account>)

  /** The entities stored for one circle; `joined` tells which eligibilities have a joining time. */
  datatype Index = Index(rosca: Option<RoscaEntity>, rounds: map<nat, RoundEntity>, joined: map<Account, bool>, deposits: map<Account, nat>)

  const NO_INDEX := Index(None, map[], map[], map[])

  /** Adds to the total of a circle's deposits, if there is an entity for it. */
  function WithTotal(rosca: Option<RoscaEntity>, change: int): Option<RoscaEntity> {
    if rosca.None? then None else Some(rosca.value.(totalDeposits := rosca.value.totalDeposits + change))
  }

  /** Some round with this recipient, as a query with limit 1 returns it. */
  ghost function FindRound(rounds: map<nat, RoundEntity>, r: Account): (k: Option<nat>)
    ensures k.Some? ==> k.value in rounds && rounds[k.value].recipient == r
    ensures k.None? ==> forall i :: i in rounds ==> rounds[i].recipient != r
  {
    if exists i :: i in rounds && rounds[i].recipient == r then
      var i :| i in rounds && rounds[i].recipient == r;
      Some(i)
    else None
  }

  function Include(s: seq<Account>, p: Account): seq<Account> {
    if p in s then s else s + [p]
  }

  function WithActual(rounds: map<nat, RoundEntity>, k: Option<nat>, p: Account): map<nat, RoundEntity>
    requires k.Some? ==> k.value in rounds
  {
    if k.None? then rounds
    else rounds[k.value := rounds[k.value].(actual := Include(rounds[k.value].actual, p))]
  }

  function WithDefaulter(rounds: map<nat, RoundEntity>, k: Option<nat>, p: Account): map<nat, RoundEntity>
    requires k.Some? ==> k.value in rounds
  {
    if k.None? then rounds
    else rounds[k.value := rounds[k.value].(defaulters := Include(rounds[k.value].defaulters, p))]
  }

  function FreshRound(i: RoundInfo): RoundEntity {
    RoundEntity(i.number, i.cutoff, i.expected, i.recipient, [], [])
  }

  function WithRounds(rounds: map<nat, RoundEntity>, rs: seq<RoundInfo>): map<nat, RoundEntity> {
    if rs == [] then rounds
    else WithRounds(rounds, rs[..|rs| - 1])[rs[|rs| - 1].number := FreshRound(rs[|rs| - 1])]
  }

  /** What the handler of each event does to the entities of its circle. */
  ghost function Apply(ix: Index, e: Event): Index {
    match e
    case RoscaCreated(details, eligible, creator) =>
      ix.(rosca := Some(RoscaEntity(details, creator, eligible, [creator], false, None, None, 0, None, 0)),
          joined := ix.joined + (map a | a in eligible :: a == creator))
    case JoinedRosca(p) =>
      if ix.rosca.None? || p !in ix.joined then ix
      else
        var active := ix.rosca.value.active;
        ix.(joined := ix.joined[p := true],
            rosca := Some(ix.rosca.value.(active := if p in active then active else [p] + active)))
    case LeftRosca(p) =>
      if ix.rosca.None? || p !in ix.joined then ix
      else
        ix.(joined := ix.joined[p := false],
            rosca := Some(ix.rosca.value.(active := Without(ix.rosca.value.active, p))))
    case RoscaStarted(starter, rounds, first, cutoff) =>
      ix.(rosca := if ix.rosca.None? then None
                   else Some(ix.rosca.value.(startedBy := Some(starter), currentRecipient := Some(first), currentRoundNumber := 1,
                                             currentCutoff := Some(cutoff))),
          rounds := WithRounds(ix.rounds, rounds))
    case ContributionMade(p, r, _) => ix.(rounds := WithActual(ix.rounds, FindRound(ix.rounds, r), p))
    case DepositDeducted(p, r, _, _) => ix.(rounds := WithActual(ix.rounds, FindRound(ix.rounds, r), p))
    case ParticipantDefaulted(r, p) => ix.(rounds := WithDefaulter(ix.rounds, FindRound(ix.rounds, r), p))
    case NewRoundStarted(r, cutoff) =>
      if ix.rosca.None? then ix
      else
        var x := ix.rosca.value;
        ix.(rosca := Some(x.(currentRecipient := Some(r), currentRoundNumber := x.currentRoundNumber + 1,
                             currentCutoff := if x.currentCutoff.None? then None else Some(x.currentCutoff.value + cutoff))))
    case RoscaComplete =>
      if ix.rosca.None? then ix else ix.(rosca := Some(ix.rosca.value.(completed := true)))
    case SecurityDepositContribution(p, amount) =>
      if p !in ix.joined then ix
      else ix.(deposits := ix.deposits[p := Get(ix.deposits, p, 0) + amount], rosca := WithTotal(ix.rosca, amount))
    case SecurityDepositClaimed(p, amount) =>
      if p !in ix.deposits || ix.deposits[p] != amount then ix
      else ix.(deposits := ix.deposits - {p}, rosca := WithTotal(ix.rosca, 0 - amount))
  }

  ghost function Project(log: seq<Event>): Index {
    if log == [] then NO_INDEX else Apply(Project(log[..|log| - 1]), log[|log| - 1])
  }

  lemma ProjectPush(log: seq<Event>, e: Event)
    ensures Project(log + [e]) == Apply(Project(log), e)
  {
    assert (log + [e])[..|log|] == log;
  }

  // ---------- rounds ----------

  /** A round entity lists exactly those who paid or were docked, and exactly those who defaulted, once each. */
  ghost predicate RoundAgrees(log: seq<Event>, x: RoundEntity, i: RoundInfo) {
    && x.number == i.number && x.cutoff == i.cutoff && x.expected == i.expected && x.recipient == i.recipient
    && Distinct(x.actual) && Distinct(x.defaulters)
    && (forall p :: p in x.actual <==> Tally(log, Paid(p, i.recipient)) + Tally(log, Docked(p, i.recipient)) > 0)
    && (forall p :: p in x.defaulters <==> Tally(log, Missed(p, i.recipient)) > 0)
  }

  ghost predicate RoundsAgree(log: seq<Event>, rounds: map<nat, RoundEntity>, rs: seq<RoundInfo>) {
    && (forall k :: k in rounds <==> 1 <= k <= |rs|)
    && (forall k :: 1 <= k <= |rs| ==> RoundAgrees(log, rounds[k], rs[k - 1]))
  }

  ghost predicate Numbered(rs: seq<RoundInfo>) {
    forall k :: 0 <= k < |rs| ==> rs[k].number == k + 1
  }

  lemma {:induction false} FreshRounds(rs: seq<RoundInfo>)
    requires Numbered(rs)
    ensures forall k :: k in WithRounds(map[], rs) <==> 1 <= k <= |rs|
    ensures forall k :: 1 <= k <= |rs| ==> WithRounds(map[], rs)[k] == FreshRound(rs[k - 1])
  {
    if rs != [] {
      FreshRounds(rs[..|rs| - 1]);
    }
  }

  lemma {:induction false} NoPaymentsNoTally(log: seq<Event>, p: Account, r: Account)
    requires NoPayments(log)
    ensures Tally(log, Paid(p, r)) == Tally(log, Docked(p, r)) == Tally(log, Missed(p, r)) == 0
  {
    if log != [] {
      NoPaymentsNoTally(log[..|log| - 1], p, r);
    }
  }

  lemma IncludeKeeps(s: seq<Account>, p: Account)
    requires Distinct(s)
    ensures Distinct(Include(s, p)) && forall q :: q in Include(s, p) <==> q in s || q == p
  {
  }

  /** Since recipients are distinct, the query can only find the one right round. */
  lemma FindsTheRound(log: seq<Event>, rounds: map<nat, RoundEntity>, rs: seq<RoundInfo>, r: Account)
    requires RoundsAgree(log, rounds, rs) && Distinct(Recipients(rs)) && r in Recipients(rs)
    ensures FindRound(rounds, r).Some?
    ensures var k := FindRound(rounds, r).value; 1 <= k <= |rs| && rs[k - 1].recipient == r
    ensures forall j :: 0 <= j < |rs| && rs[j].recipient == r ==> FindRound(rounds, r) == Some(j + 1)
  {
    hide Tally;
    var i :| 0 <= i < |rs| && Recipients(rs)[i] == r;
    assert i + 1 in rounds && rounds[i + 1].recipient == r;
    var k := FindRound(rounds, r).value;
    forall j | 0 <= j < |rs| && rs[j].recipient == r ensures j + 1 == k {
      assert Recipients(rs)[j] == Recipients(rs)[k - 1];
    }
  }

  /** An event that pays nobody in this round leaves its lists alone. */
  lemma OthersAgree(log: seq<Event>, e: Event, x: RoundEntity, i: RoundInfo)
    requires RoundAgrees(log, x, i) && (!IsPayment(e) || Payee(e) != i.recipient)
    ensures RoundAgrees(log + [e], x, i)
  {
    Push(log, e);
    hide Tally, Published;
  }

  lemma ActualAgrees(log: seq<Event>, e: Event, x: RoundEntity, i: RoundInfo, p: Account)
    requires RoundAgrees(log, x, i)
    requires (e.ContributionMade? && e.contributor == p && e.recipient == i.recipient)
          || (e.DepositDeducted? && e.debtor == p && e.creditor == i.recipient)
    ensures RoundAgrees(log + [e], x.(actual := Include(x.actual, p)), i)
  {
    Push(log, e);
    hide Tally, Published;
    IncludeKeeps(x.actual, p);
  }

  lemma DefaulterAgrees(log: seq<Event>, e: Event, x: RoundEntity, i: RoundInfo)
    requires RoundAgrees(log, x, i) && e.ParticipantDefaulted? && e.unpaidRecipient == i.recipient
    ensures RoundAgrees(log + [e], x.(defaulters := Include(x.defaulters, e.defaulter)), i)
  {
    Push(log, e);
    hide Tally, Published;
    IncludeKeeps(x.defaulters, e.defaulter);
  }

  lemma PaymentAgrees(log: seq<Event>, ix: Index, e: Event, rs: seq<RoundInfo>)
    requires RoundsAgree(log, ix.rounds, rs) && Distinct(Recipients(rs))
    requires IsPayment(e) && Payee(e) in Recipients(rs)
    ensures RoundsAgree(log + [e], Apply(ix, e).rounds, rs)
  {
    hide RoundAgrees, Tally;
    FindsTheRound(log, ix.rounds, rs, Payee(e));
    forall j | 1 <= j <= |rs| ensures RoundAgrees(log + [e], Apply(ix, e).rounds[j], rs[j - 1]) {
      var i := j - 1;
      assert rs[i].recipient == Payee(e) ==> FindRound(ix.rounds, Payee(e)) == Some(i + 1);
      if rs[i].recipient != Payee(e) {
        OthersAgree(log, e, ix.rounds[j], rs[i]);
      } else if e.ParticipantDefaulted? {
        DefaulterAgrees(log, e, ix.rounds[j], rs[i]);
      } else {
        ActualAgrees(log, e, ix.rounds[j], rs[i], if e.ContributionMade? then e.contributor else e.debtor);
      }
    }
  }

  lemma OtherAgrees(log: seq<Event>, ix: Index, e: Event, rs: seq<RoundInfo>)
    requires RoundsAgree(log, ix.rounds, rs) && !IsPayment(e) && !e.RoscaStarted?
    ensures RoundsAgree(log + [e], Apply(ix, e).rounds, rs)
  {
    hide RoundAgrees, Tally, FindRound;
    assert Apply(ix, e).rounds == ix.rounds;
    forall j | 1 <= j <= |rs| ensures RoundAgrees(log + [e], ix.rounds[j], rs[j - 1]) {
      OthersAgree(log, e, ix.rounds[j], rs[j - 1]);
    }
  }

  lemma StartAgrees(log: seq<Event>, ix: Index, e: Event)
    requires e.RoscaStarted? && Numbered(e.rounds) && NoPayments(log + [e]) && ix.rounds == map[]
    ensures RoundsAgree(log + [e], Apply(ix, e).rounds, e.rounds)
  {
    hide Tally, WithRounds;
    FreshRounds(e.rounds);
    forall p, r ensures Tally(log + [e], Paid(p, r)) == Tally(log + [e], Docked(p, r)) == Tally(log + [e], Missed(p, r)) == 0 {
      NoPaymentsNoTally(log + [e], p, r);
    }
  }

  /** For every orderly log the indexer's rounds agree with the log. */
  lemma {:induction false} RoundsProjected(log: seq<Event>)
    requires Orderly(log)
    ensures RoundsAgree(log, Project(log).rounds, Published(log))
  {
    hide RoundsAgree, Apply, Tally;
    if log == [] {
      NothingAgrees();
    } else {
      var init, e := log[..|log| - 1], log[|log| - 1];
      assert log == init + [e];
      RoundsProjected(init);
      var ix, rs := Project(init), Published(init);
      if e.RoscaStarted? {
        BeforeStart(init);
        NoRounds(init, ix.rounds);
        StartAgrees(init, ix, e);
      } else if IsPayment(e) {
        assert rs != [];
        TotalsAreSums(init, ByPaying, Payee(e));
        PaymentAgrees(init, ix, e, rs);
      } else {
        OtherAgrees(init, ix, e, rs);
      }
    }
  }

  lemma NothingAgrees()
    ensures RoundsAgree([], map[], [])
  {
  }

  lemma NoRounds(log: seq<Event>, rounds: map<nat, RoundEntity>)
    requires RoundsAgree(log, rounds, [])
    ensures rounds == map[]
  {
  }
}

/** The shape of a circle's event log, and totals over all its rounds. */
module Chronicle {
  import opened Prelude
  import opened Storage
  import opened Journal
  import opened Schedule
  import opened Circles

  function Payee(e: Event): Account
    requires IsPayment(e)
  {
    match e
    case ContributionMade(_, r, _) => r
    case DepositDeducted(_, r, _, _) => r
    case ParticipantDefaulted(r, _) => r
  }

  /** The accounts that the circle's creation announced as eligible. */
  ghost function Eligible(log: seq<Event>): set<Account> {
    if log != [] && log[0].RoscaCreated? then Elems(log[0].eligible) else {}
  }

  /** The members according to the log. */
  ghost function Present(log: seq<Event>): set<Account> {
    if log == [] then {}
    else
      var before, e := Present(log[..|log| - 1]), log[|log| - 1];
      if e.RoscaCreated? then {e.creator}
      else if e.JoinedRosca? then before + {e.joiner}
      else if e.LeftRosca? then before - {e.leaver}
      else before
  }

  /** The deposit of p according to the log. */
  ghost function Held(log: seq<Event>, p: Account): int {
    Tally(log, Added(p)) - Tally(log, Returned(p)) - Tally(log, Taken(p))
  }

  /** May `e` come next? Creation comes first and lists the creator first and nobody twice, the start comes once and new rounds after
      it, the eligible join once and leave after that, payments name scheduled recipients, only the eligible add to a deposit, and a claim is of all that is held. */
  ghost predicate MayFollow(log: seq<Event>, e: Event) {
    && (e.RoscaCreated? <==> log == [])
    && (e.RoscaCreated? ==> e.eligible != [] && e.eligible[0] == e.creator && Distinct(e.eligible))
    && (e.RoscaStarted? ==>
          Published(log) == [] && e.rounds != [] && Distinct(Recipients(e.rounds)) && e.firstCutoff == e.rounds[0].cutoff > 0
          && forall k :: 0 <= k < |e.rounds| ==> e.rounds[k].number == k + 1)
    && (e.JoinedRosca? ==> e.joiner in Eligible(log) && e.joiner !in Present(log))
    && (e.LeftRosca? ==> e.leaver in Present(log))
    && (e.NewRoundStarted? ==> Published(log) != [])
    && (IsPayment(e) ==> Payee(e) in Recipients(Published(log)))
    && (e.SecurityDepositContribution? ==> e.depositor in Eligible(log))
    && (e.SecurityDepositClaimed? ==> e.claimed == Held(log, e.claimer))
  }

  ghost predicate Orderly(log: seq<Event>) {
    log != [] ==> Orderly(log[..|log| - 1]) && MayFollow(log[..|log| - 1], log[|log| - 1])
  }

  lemma OrderlyPush(log: seq<Event>, e: Event)
    requires Orderly(log) && MayFollow(log, e)
    ensures Orderly(log + [e])
  {
    assert (log + [e])[..|log|] == log;
  }

  datatype Kind = ByPaying | ByDeposit | ByDefault

  /** Marks of one kind for p in the round that pays r, and over all rounds. */
  function InRound(kind: Kind, p: Account, r: Account): Query {
    match kind
    case ByPaying => Paid(p, r)
    case ByDeposit => Covered(p, r)
    case ByDefault => Missed(p, r)
  }

  function Overall(kind: Kind, p: Account): Query {
    match kind
    case ByPaying => PaidBy(p)
    case ByDeposit => CoveredFor(p)
    case ByDefault => MissedBy(p)
  }

  /** The tally over the first k rounds. */
  ghost function OverRounds(log: seq<Event>, kind: Kind, p: Account, rs: seq<RoundInfo>, k: nat): nat
    requires k <= |rs|
  {
    if k == 0 then 0 else OverRounds(log, kind, p, rs, k - 1) + Tally(log, InRound(kind, p, rs[k - 1].recipient))
  }

  lemma {:induction false} NoneOverRounds(kind: Kind, p: Account, rs: seq<RoundInfo>, k: nat)
    requires k <= |rs|
    ensures OverRounds([], kind, p, rs, k) == 0
  {
    if k > 0 {
      NoneOverRounds(kind, p, rs, k - 1);
    }
  }

  /** One more event counts in at most one round: that of its payee. */
  lemma {:induction false} PushOverRounds(log: seq<Event>, e: Event, kind: Kind, p: Account, rs: seq<RoundInfo>, k: nat)
    requires k <= |rs| && Distinct(Recipients(rs))
    ensures OverRounds(log + [e], kind, p, rs, k) == OverRounds(log, kind, p, rs, k)
              + if IsPayment(e) && Payee(e) in Recipients(rs)[..k] then Weight(e, Overall(kind, p)) else 0
  {
    if k > 0 {
      PushOverRounds(log, e, kind, p, rs, k - 1);
      Push(log, e);
      hide Tally, Published;
      var before, x := Recipients(rs)[..k - 1], rs[k - 1].recipient;
      assert Recipients(rs)[..k] == before + [x];
      assert x !in before;
      RoundWeight(e, kind, p, x);
    }
  }

  lemma RoundWeight(e: Event, kind: Kind, p: Account, x: Account)
    ensures Weight(e, InRound(kind, p, x)) == if IsPayment(e) && Payee(e) == x then Weight(e, Overall(kind, p)) else 0
    ensures !IsPayment(e) ==> Weight(e, Overall(kind, p)) == 0
  {
  }

  ghost predicate NoPayments(log: seq<Event>) {
    forall i :: 0 <= i < |log| ==> !IsPayment(log[i])
  }

  lemma {:induction false} BeforeStart(log: seq<Event>)
    requires Orderly(log) && Published(log) == []
    ensures NoPayments(log)
  {
    if log != [] {
      BeforeStart(log[..|log| - 1]);
    }
  }

  lemma {:induction false} NoPaymentsNoMarks(log: seq<Event>, kind: Kind, p: Account, rs: seq<RoundInfo>)
    requires NoPayments(log) && Distinct(Recipients(rs))
    ensures Tally(log, Overall(kind, p)) == 0 && OverRounds(log, kind, p, rs, |rs|) == 0
  {
    if log == [] {
      NoneOverRounds(kind, p, rs, |rs|);
    } else {
      var init, e := log[..|log| - 1], log[|log| - 1];
      assert log == init + [e];
      NoPaymentsNoMarks(init, kind, p, rs);
      PushOverRounds(init, e, kind, p, rs, |rs|);
      RoundWeight(e, kind, p, p);
    }
  }

  /** Overall tallies are the sums of the per-round tallies. */
  lemma {:induction false} TotalsAreSums(log: seq<Event>, kind: Kind, p: Account)
    requires Orderly(log) && Published(log) != []
    ensures Tally(log, Overall(kind, p)) == OverRounds(log, kind, p, Published(log), |Published(log)|)
    ensures Distinct(Recipients(Published(log)))
  {
    var init, e := log[..|log| - 1], log[|log| - 1];
    var rs := Published(log);
    assert log == init + [e];
    if e.RoscaStarted? {
      BeforeStart(init);
      assert NoPayments(log);
      NoPaymentsNoMarks(log, kind, p, rs);
    } else {
      TotalsAreSums(init, kind, p);
      PushOverRounds(init, e, kind, p, rs, |rs|);
      RoundWeight(e, kind, p, p);
      assert Recipients(rs)[..|rs|] == Recipients(rs);
    }
  }
}

/** The start of a circle: when it succeeds, and the schedule it publishes. */
module Launch {
  import opened Prelude
  import opened Storage
  import opened Rules
  import opened Journal
  import opened Schedule
  import opened Rota
  import opened Accounts
  import opened Circles
  import opened Membership

  /** The order handed to the round generator. */
  ghost function StartOrder(slots: seq<Option<Account>>, shuffled: bool, byte: nat): seq<Account> {
    if shuffled then Shuffle(Filled(Reverse(slots)), Always(byte)) else Filled(Reverse(slots))
  }

  /** With or without shuffling, the order is a permutation of the filled slots. */
  lemma StartOrderPermutes(slots: seq<Option<Account>>, shuffled: bool, byte: nat)
    ensures multiset(StartOrder(slots, shuffled, byte)) == multiset(Filled(slots))
  {
    FilledReverse(slots);
    ReversePermutes(Filled(slots));
    if shuffled {
      ShufflePermutes(Filled(Reverse(slots)), Always(byte));
    }
  }

  lemma {:induction false} ReversePermutes(s: seq<Account>)
    ensures multiset(Reverse(s)) == multiset(s)
  {
    if s != [] {
      ReversePermutes(s[..|s| - 1]);
      assert s == s[..|s| - 1] + [s[|s| - 1]];
    }
  }

  lemma StartOrderLists(slots: seq<Option<Account>>, index: map<Account, nat>, shuffled: bool, byte: nat)
    requires Seated(slots, index)
    ensures var order := StartOrder(slots, shuffled, byte);
            Distinct(order) && Elems(order) == index.Keys && |order| == |index|
  {
    SeatedFilled(slots, index);
    StartOrderPermutes(slots, shuffled, byte);
    PermutationKeeps(Filled(slots), StartOrder(slots, shuffled, byte));
  }

  /** The generated rounds are a schedule for exactly the listed members, read from the back of the order. */
  lemma GeneratedSchedule(cfg: Config, order: seq<Account>, t0: u64, f: pos64)
    requires Distinct(order) && Fits(cfg, |order|) && |order| > 0
    ensures GenerateRounds(cfg, order, t0, f).Ok? <==> t0 + (|order| + 1) * f <= U64_MAX
    ensures GenerateRounds(cfg, order, t0, f).Ok? ==>
              var rs := GenerateRounds(cfg, order, t0, f).value;
              && |rs| == |order|
              && ScheduleFor(rs, Elems(order), f)
              && order == Reverse(Recipients(rs))
              && rs[0].cutoff == t0 + f && rs[|rs| - 1].cutoff == t0 + |rs| * f
  {
    var n := |order|;
    hide RoundsUpTo, ScheduleFor, Recipients, Reverse, Distinct;
    RoundsClosedForm(cfg, order, t0, f, n);
    if GenerateRounds(cfg, order, t0, f).Ok? {
      BuiltSchedule(order, GenerateRounds(cfg, order, t0, f).value, t0, f);
    }
  }

  ghost predicate Built(order: seq<Account>, rs: seq<RoundInfo>, t0: u64, f: pos64) {
    && |rs| == |order|
    && forall j :: 0 <= j < |rs| ==>
         && rs[j].number == j + 1
         && rs[j].cutoff == t0 + (j + 1) * f
         && rs[j].recipient == order[|order| - 1 - j]
         && rs[j].expected == Without(order, order[|order| - 1 - j])
  }

  lemma BuiltSchedule(order: seq<Account>, rs: seq<RoundInfo>, t0: u64, f: pos64)
    requires Distinct(order) && 0 < |order| <= U32_MAX && Built(order, rs, t0, f) && t0 + (|order| + 1) * f <= U64_MAX
    ensures ScheduleFor(rs, Elems(order), f) && order == Reverse(Recipients(rs))
    ensures rs[0].cutoff == t0 + f && rs[|rs| - 1].cutoff == t0 + |rs| * f
  {
    hide Reverse;
    assert order == Reverse(Recipients(rs));
    CutoffsStep(rs, t0, f);
    RecipientsOf(order, rs);
    hide Recipients;
    forall k | 0 <= k < |rs| ensures Distinct(rs[k].expected) && Elems(rs[k].expected) == Elems(order) - {rs[k].recipient} {
      WithoutFacts(order, order[|order| - 1 - k]);
    }
  }

  lemma CutoffsStep(rs: seq<RoundInfo>, t0: u64, f: pos64)
    requires |rs| > 0 && t0 + (|rs| + 1) * f <= U64_MAX
    requires forall j :: 0 <= j < |rs| ==> rs[j].cutoff == t0 + (j + 1) * f
    ensures forall k :: 0 < k < |rs| ==> rs[k].cutoff == rs[k - 1].cutoff + f
    ensures rs[|rs| - 1].cutoff + f <= U64_MAX
  {
    forall k | 0 < k < |rs| ensures rs[k].cutoff == rs[k - 1].cutoff + f {
      assert (k + 1) * f == k * f + f;
    }
    assert (|rs| + 1) * f == |rs| * f + f;
  }

  lemma RecipientsOf(order: seq<Account>, rs: seq<RoundInfo>)
    requires Distinct(order) && order == Reverse(Recipients(rs))
    ensures Distinct(Recipients(rs)) && Elems(Recipients(rs)) == Elems(order)
  {
    hide Reverse, Recipients;
    var r, n := Recipients(rs), |rs|;
    forall i, j | 0 <= i < j < n ensures r[i] != r[j] {
      assert order[n - 1 - j] != order[n - 1 - i];
    }
    forall x ensures x in r <==> x in order {
      if x in r {
        var i :| 0 <= i < n && r[i] == x;
        assert order[n - 1 - i] == x;
      }
      if x in order {
        var i :| 0 <= i < n && order[i] == x;
        assert r[n - 1 - i] == x;
      }
    }
  }

  /** May the circle start now? The last conjunct is that every deadline, and one step more, fits the clock. */
  ghost predicate MayStart(c: Circle, now: u64, signer: Account)
    requires HasTerms(c)
  {
    && signer in c.Members()
    && now < Terms(c).startBy
    && |c.participants| >= Terms(c).threshold
    && now + (|c.participants| + 1) * Terms(c).frequency <= U64_MAX
  }

  ghost function OrderOf(c: Circle, byte: nat): seq<Account>
    requires HasTerms(c) && c.pendingOrder.Some?
  {
    StartOrder(c.pendingOrder.value, Terms(c).randomOrder, byte)
  }

  /** What a successful start writes. */
  ghost function Launched(c: Circle, now: u64, signer: Account, order: seq<Account>, rs: seq<RoundInfo>): Circle
    requires HasTerms(c) && |order| > 0 && |rs| > 0
  {
    c.(claimant := Some(order[|order| - 1]),
       order := Some(RotateRight(order)),
       nextPayBy := Some(rs[0].cutoff),
       finalPayBy := Some(rs[|rs| - 1].cutoff),
       active := Some(Terms(c)),
       pending := None,
       log := c.log + [RoscaStarted(signer, rs, order[|order| - 1], rs[0].cutoff)])
  }

  lemma OrderOfLists(cfg: Config, c: Circle, byte: nat)
    requires HasTerms(c) && Seating(cfg, c)
    ensures c.pendingOrder.Some?
    ensures var order := OrderOf(c, byte);
            Distinct(order) && Elems(order) == c.Members() && |order| == |c.participants| && Fits(cfg, |order|)
    ensures |Filled(Reverse(c.pendingOrder.value))| == |c.participants|
  {
    StartOrderLists(c.pendingOrder.value, c.participants, Terms(c).randomOrder, byte);
    StartOrderLists(c.pendingOrder.value, c.participants, false, byte);
    hide Seated, StartOrder;
    SubsetCard(c.Members(), c.invited);
  }

  /** Starting succeeds exactly when `MayStart` holds; nothing else in it can fail. */
  lemma StartIs(cfg: Config, id: RoscaId, c: Circle, l: Ledger, now: u64, signer: Account, byte: nat)
    requires PendingOk(cfg, id, c, l)
    ensures StartRosca(cfg, c, now, signer, byte).Ok? <==> MayStart(c, now, signer)
    ensures MayStart(c, now, signer) ==>
              var order := OrderOf(c, byte);
              var g := GenerateRounds(cfg, order, now, Terms(c).frequency);
              && |order| > 0 && g.Ok? && |g.value| > 0
              && StartRosca(cfg, c, now, signer, byte).value == Launched(c, now, signer, order, g.value)
  {
    hide Quiet, SavingsOk, DefaultsOk, Solvent, Seated, GenerateRounds, Filled, Reverse, Shuffle, AddTimes, Tally, ScheduleFor, Recipients;
    OrderOfLists(cfg, c, byte);
    var order, f := OrderOf(c, byte), Terms(c).frequency;
    hide Seating, StartOrder, Fits, NotStarted, KeyHolders;
    if signer in c.Members() {
      assert |order| > 0;
      GeneratedSchedule(cfg, order, now, f);
      FinalDeadline(now, f, |order|);
    }
  }

  lemma FinalDeadline(t0: u64, f: pos64, n: nat)
    requires n > 0
    ensures t0 + (n + 1) * f <= U64_MAX ==> t0 + f <= U64_MAX && AddTimes(t0 + f, f, n - 1) == Ok(t0 + n * f)
  {
    assert (n + 1) * f == n * f + f && n * f == (n - 1) * f + f;
    if t0 + (n + 1) * f <= U64_MAX {
      assert (n - 1) * f >= 0;
      AddTimesClosedForm(t0 + f, f, n - 1);
    }
  }

  /** A circle that starts runs in round one of the schedule it publishes. */
  lemma StartRuns(cfg: Config, id: RoscaId, c: Circle, l: Ledger, now: u64, signer: Account, byte: nat)
    requires PendingOk(cfg, id, c, l) && StartRosca(cfg, c, now, signer, byte).Ok?
    ensures var c' := StartRosca(cfg, c, now, signer, byte).value;
            Running(id, c', l, Published(c'.log), 1) && |Published(c'.log)| == |c.participants|
  {
    hide Quiet, SavingsOk, DefaultsOk, Seating, Solvent, StartRosca, GenerateRounds, ScheduleFor, MayStart, StartOrder, Tally, Published, BooksOk, Positioned;
    StartIs(cfg, id, c, l, now, signer, byte);
    OrderOfLists(cfg, c, byte);
    var order, f := OrderOf(c, byte), Terms(c).frequency;
    GeneratedSchedule(cfg, order, now, f);
    var rs := GenerateRounds(cfg, order, now, f).value;
    var c' := Launched(c, now, signer, order, rs);
    var e := RoscaStarted(signer, rs, order[|order| - 1], rs[0].cutoff);
    assert c'.log[0] == c.log[0];
    LaunchedPosition(c, now, signer, order, rs, f);
    LaunchedBooks(c, e, rs);
    PushSavings(c, c', e);
    PushDefaults(c, c', e, 0);
    LaunchedSolvent(id, c, c', l);
  }

  lemma LaunchedSolvent(id: RoscaId, c: Circle, c': Circle, l: Ledger)
    requires HasTerms(c) && HasTerms(c') && Terms(c') == Terms(c) && c'.deposits == c.deposits && Solvent(id, c, l)
    ensures Solvent(id, c', l)
  {
  }

  lemma LaunchedPosition(c: Circle, now: u64, signer: Account, order: seq<Account>, rs: seq<RoundInfo>, f: pos64)
    requires HasTerms(c) && |order| == |rs| > 0 && ScheduleFor(rs, c.Members(), f) && order == Reverse(Recipients(rs))
    ensures Positioned(Launched(c, now, signer, order, rs), f, rs, 1)
  {
    FirstOrder(order, rs);
    hide ScheduleFor, OrderAt, Recipients, Reverse;
  }

  lemma LaunchedBooks(c: Circle, e: Event, rs: seq<RoundInfo>)
    requires Quiet(c.log) && e.RoscaStarted? && e.rounds == rs
    ensures var log := c.log + [e];
            BooksOk(log, c.Members(), {}, rs, 1) && Published(log) == rs && Tally(log, RoundStarts) == 1
  {
    PushOther(c.log, e);
    var log := c.log + [e];
    hide Tally, Open, Closed, SameFor;
    forall k | 0 <= k < |rs| ensures RoundState(log, c.Members(), {}, rs[k].recipient, k + 1, 1) {
      SameForKeeps(c.log, log, c.Members(), {}, rs[k].recipient, 1, 1);
    }
  }

  /** The payout order: in a circle that is not shuffled round k pays the k-th filled slot;
      in any circle the recipients are a permutation of the filled slots. */
  lemma PayoutOrder(cfg: Config, id: RoscaId, c: Circle, l: Ledger, now: u64, signer: Account, byte: nat)
    requires PendingOk(cfg, id, c, l) && StartRosca(cfg, c, now, signer, byte).Ok?
    ensures var rs := Published(StartRosca(cfg, c, now, signer, byte).value.log);
            && (!Terms(c).randomOrder ==> Recipients(rs) == Filled(c.pendingOrder.value))
            && multiset(Recipients(rs)) == multiset(Filled(c.pendingOrder.value))
  {
    hide Quiet, SavingsOk, DefaultsOk, Seating, Solvent, StartRosca, GenerateRounds, ScheduleFor, MayStart, Tally, Published;
    StartIs(cfg, id, c, l, now, signer, byte);
    OrderOfLists(cfg, c, byte);
    var order, f := OrderOf(c, byte), Terms(c).frequency;
    GeneratedSchedule(cfg, order, now, f);
    var rs := GenerateRounds(cfg, order, now, f).value;
    Push(c.log, RoscaStarted(signer, rs, order[|order| - 1], rs[0].cutoff));
    PayoutIsReversed(c.pendingOrder.value, Terms(c).randomOrder, byte, Recipients(rs));
  }

  lemma PayoutIsReversed(slots: seq<Option<Account>>, shuffled: bool, byte: nat, recipients: seq<Account>)
    requires StartOrder(slots, shuffled, byte) == Reverse(recipients)
    ensures !shuffled ==> recipients == Filled(slots)
    ensures multiset(recipients) == multiset(Filled(slots))
  {
    hide Filled, Shuffle, Reverse;
    StartOrderPermutes(slots, shuffled, byte);
    ReversePermutes(recipients);
    if !shuffled {
      FilledReverse(slots);
      ReverseInjective(recipients, Filled(slots));
    }
  }

  lemma ReverseInjective(s: seq<Account>, t: seq<Account>)
    requires Reverse(s) == Reverse(t)
    ensures s == t
  {
    hide Reverse;
    assert |s| == |Reverse(s)| == |t|;
    forall i | 0 <= i < |s| ensures s[i] == t[i] {
      assert Reverse(s)[|s| - 1 - i] == Reverse(t)[|s| - 1 - i];
    }
  }
}

/** Pending circles: slots, membership, and the start. */
module Membership {
  import opened Prelude
  import opened Storage
  import opened Rules
  import opened Journal
  import opened Schedule
  import opened Settlement
  import opened Accounts
  import opened Circles

  /** Slots and the index of participants are inverse to each other. */
  ghost predicate Seated(slots: seq<Option<Account>>, index: map<Account, nat>) {
    && (forall a :: a in index ==> index[a] < |slots| && slots[index[a]] == Some(a))
    && (forall i :: 0 <= i < |slots| && slots[i].Some? ==> slots[i].value in index && index[slots[i].value] == i)
  }

  ghost predicate Seating(cfg: Config, c: Circle) {
    && c.pendingOrder.Some?
    && Seated(c.pendingOrder.value, c.participants)
    && c.Members() <= c.invited
    && |c.invited| == |c.pendingOrder.value|
    && Fits(cfg, |c.invited|)
    && c.participantCount == Some(|c.participants|)
  }

  /** Nothing of the running phase exists yet. */
  ghost predicate NotStarted(c: Circle) {
    && c.order.None? && c.claimant.None? && c.nextPayBy.None? && c.finalPayBy.None?
    && c.contributors == {} && c.contributionCount == 0
  }

  ghost predicate Quiet(log: seq<Event>) {
    && (forall x :: Open(log, x, {}))
    && Tally(log, RoundStarts) == 0
    && Published(log) == []
  }

  ghost predicate PendingOk(cfg: Config, id: RoscaId, c: Circle, l: Ledger) {
    && HasTerms(c) && c.pending == Some(Terms(c)) && c.active.None? && !c.completed
    && KeyHolders(c.Members())
    && Seating(cfg, c)
    && NotStarted(c)
    && Quiet(c.log)
    && SavingsOk(c)
    && Solvent(id, c, l)
    && DefaultsOk(c, 0)
  }

  // ---------- slots ----------

  /** The occupants of the slots are exactly the members, each in one slot. */
  lemma SeatedFilled(slots: seq<Option<Account>>, index: map<Account, nat>)
    requires Seated(slots, index)
    ensures Distinct(Filled(slots)) && Elems(Filled(slots)) == index.Keys
    ensures |Filled(slots)| == |index|
  {
    FilledElems(slots);
    assert NoRepeats(slots);
    FilledDistinct(slots);
    assert Elems(Filled(slots)) == index.Keys by {
      forall a ensures a in Elems(Filled(slots)) <==> a in index {
        assert a in Filled(slots) <==> Some(a) in slots;
      }
    }
    DistinctCard(Filled(slots));
  }

  lemma {:induction false} FilledFull(slots: seq<Option<Account>>)
    requires forall i :: 0 <= i < |slots| ==> slots[i].Some?
    ensures |Filled(slots)| == |slots|
  {
    if slots != [] {
      FilledFull(slots[..|slots| - 1]);
    }
  }

  /** There is a free slot for everyone who is invited and has not joined. */
  lemma FreeSlot(cfg: Config, c: Circle, signer: Account)
    requires Seating(cfg, c) && signer in c.invited && signer !in c.participants
    ensures FirstFree(c.pendingOrder.value).Some?
    ensures |c.participants| < |c.invited|
  {
    var slots := c.pendingOrder.value;
    SeatedFilled(slots, c.participants);
    SubsetCard(c.Members() + {signer}, c.invited);
    if FirstFree(slots).None? {
      FilledFull(slots);
    }
  }

  lemma SeatJoins(slots: seq<Option<Account>>, index: map<Account, nat>, k: nat, a: Account)
    requires Seated(slots, index) && k < |slots| && slots[k].None? && a !in index
    ensures Seated(slots[k := Some(a)], index[a := k])
  {
  }

  lemma SeatLeaves(slots: seq<Option<Account>>, index: map<Account, nat>, a: Account)
    requires Seated(slots, index) && a in index
    ensures Seated(slots[index[a] := None], index - {a})
  {
  }

  // ---------- sort and dedup ----------

  ghost predicate Increasing(s: seq<Account>) {
    forall i, j :: 0 <= i < j < |s| ==> Below(s[i], s[j])
  }

  lemma {:induction false} InsertIncreasing(a: Account, s: seq<Account>)
    requires Increasing(s)
    ensures Increasing(Insert(a, s))
  {
    if s != [] && a != s[0] && !Below(a, s[0]) {
      var t := Insert(a, s[1..]);
      InsertIncreasing(a, s[1..]);
      assert Below(s[0], a);
      forall x | x in t ensures Below(s[0], x) {
        assert x in Elems(t);
        assert x == a || x in Elems(s[1..]);
      }
    }
  }

  /** `sort` and `dedup` leave each invited account once, in increasing order. */
  lemma {:induction false} SortDedupIncreasing(s: seq<Account>)
    ensures Increasing(SortDedup(s))
  {
    if s != [] {
      SortDedupIncreasing(s[1..]);
      InsertIncreasing(s[0], SortDedup(s[1..]));
    }
  }

  lemma {:induction false} ElemsAtMost(s: seq<Account>)
    ensures |Elems(s)| <= |s|
  {
    if s != [] {
      var init := s[..|s| - 1];
      ElemsAtMost(init);
      assert Elems(s) == Elems(init) + {s[|s| - 1]};
    }
  }

  lemma Guests(invited: seq<Account>, signer: Account)
    requires signer !in invited
    ensures var g := SortDedup(invited);
            |g| <= |invited| && |{signer} + (set a | a in g)| == |g| + 1
  {
    var g := SortDedup(invited);
    SortDedupIncreasing(invited);
    assert Distinct(g);
    DistinctCard(g);
    ElemsAtMost(invited);
    assert signer !in Elems(g);
    assert {signer} + (set a | a in g) == {signer} + Elems(g);
  }

  // ---------- create, join, leave ----------

  /** The list that a creation announces. */
  lemma GuestList(invited: seq<Account>, signer: Account)
    requires signer !in invited
    ensures var list := [signer] + SortDedup(invited);
            && Distinct(list) && Elems(list) == Elems(invited) + {signer}
            && {signer} + (set a | a in SortDedup(invited)) == Elems(invited) + {signer}
  {
    hide SortDedup;
    SortDedupIncreasing(invited);
    var g := SortDedup(invited);
    assert signer !in Elems(g);
    assert Elems([signer] + g) == Elems(g) + {signer};
  }

  lemma PushQuiet(log: seq<Event>, e: Event)
    requires Quiet(log) && !IsPayment(e) && !e.RoscaStarted? && !e.NewRoundStarted?
    ensures Quiet(log + [e])
  {
    hide Tally, Published, Open, SameFor;
    PushOther(log, e);
    forall x ensures Open(log + [e], x, {}) {
      assert SameFor(log, log + [e], x);
      SameForKeeps(log, log + [e], {}, {}, x, 1, 1);
    }
  }

  lemma EmptyLog()
    ensures Quiet([])
    ensures forall q :: Tally([], q) == 0
  {
  }

  /** A created circle is well: the creator alone sits in the chosen slot. */
  lemma CreatePending(cfg: Config, id: RoscaId, l: Ledger, now: u64, signer: Account, randomOrder: bool,
                      invited: seq<Account>, threshold: u32, amount: u32, asset: Asset,
                      frequency: u64, startBy: u64, position: Option<u32>)
    requires signer.Member?
    requires CreateRosca(cfg, EMPTY, now, signer, randomOrder, invited, threshold, amount, asset, frequency, startBy, position).Ok?
    ensures PendingOk(cfg, id,
              CreateRosca(cfg, EMPTY, now, signer, randomOrder, invited, threshold, amount, asset, frequency, startBy, position).value, l)
  {
    hide Quiet, Sum, Tally, SortDedup, Published;
    var c := CreateRosca(cfg, EMPTY, now, signer, randomOrder, invited, threshold, amount, asset, frequency, startBy, position).value;
    var g := SortDedup(invited);
    Guests(invited, signer);
    assert c.invited == {signer} + (set a | a in g);
    var e := c.log[0];
    assert c.log == [] + [e] && e.RoscaCreated?;
    EmptyLog();
    PushQuiet([], e);
    CreatedBooks(c, e);
  }

  lemma CreatedBooks(c: Circle, e: Event)
    requires e.RoscaCreated? && c.log == [] + [e] && c.deposits == map[] && c.defaults == map[]
    ensures SavingsOk(c) && DefaultsOk(c, 0) && Sum(c.deposits) == 0
  {
    EmptyLog();
    Push([], e);
    hide Tally;
  }

  /** An invited account that has not joined can always join a pending circle in time without naming a slot. */
  lemma JoinAnywhere(cfg: Config, id: RoscaId, c: Circle, l: Ledger, now: u64, signer: Account)
    requires PendingOk(cfg, id, c, l)
    ensures JoinRosca(c, now, signer, None).Ok? <==>
              signer in c.invited && signer !in c.participants && now < Terms(c).startBy
  {
    hide Quiet, SavingsOk, DefaultsOk, Solvent, Seated, FirstFree;
    if signer in c.invited && signer !in c.participants {
      FreeSlot(cfg, c, signer);
    }
  }

  lemma JoinIs(c: Circle, now: u64, signer: Account, position: Option<u32>)
    requires JoinRosca(c, now, signer, position).Ok?
    ensures c.pendingOrder.Some? && c.participantCount.Some? && c.participantCount.value < U32_MAX
    ensures PickSlot(c.pendingOrder.value, position).Ok? && signer in c.invited && signer !in c.participants
    ensures var k := PickSlot(c.pendingOrder.value, position).value;
            JoinRosca(c, now, signer, position).value ==
              c.(pendingOrder := Some(c.pendingOrder.value[k := Some(signer)]),
                 participants := c.participants[signer := k],
                 participantCount := Some(c.participantCount.value + 1),
                 log := c.log + [JoinedRosca(signer)])
  {
  }

  lemma JoinPending(cfg: Config, id: RoscaId, c: Circle, l: Ledger, now: u64, signer: Account, position: Option<u32>)
    requires PendingOk(cfg, id, c, l) && signer.Member? && JoinRosca(c, now, signer, position).Ok?
    ensures PendingOk(cfg, id, JoinRosca(c, now, signer, position).value, l)
  {
    hide Quiet, SavingsOk, DefaultsOk, Sum, Tally, Published, Seated, Ledger.Balance, JoinRosca, PickSlot;
    JoinIs(c, now, signer, position);
    var c' := JoinRosca(c, now, signer, position).value;
    var e := JoinedRosca(signer);
    assert c'.log[0] == c.log[0];
    SeatJoins(c.pendingOrder.value, c.participants, PickSlot(c.pendingOrder.value, position).value, signer);
    PushQuiet(c.log, e);
    assert c'.Members() == c.Members() + {signer};
    PushSavings(c, c', e);
    PushDefaults(c, c', e, 0);
  }

  /** What leaving writes apart from the refund. */
  ghost function Vacated(c: Circle, signer: Account): Circle
    requires c.pendingOrder.Some? && c.participantCount.Some? && c.participantCount.value > 0
    requires signer in c.participants && c.participants[signer] < |c.pendingOrder.value|
  {
    c.(participants := c.participants - {signer},
       pendingOrder := Some(c.pendingOrder.value[c.participants[signer] := None]),
       participantCount := Some(c.participantCount.value - 1))
  }

  /** A member of a pending circle can always leave, and gets the whole deposit back. */
  lemma LeaveIs(cfg: Config, id: RoscaId, v: View, signer: Account)
    requires PendingOk(cfg, id, v.c, v.l)
    ensures LeaveRosca(id, v, signer).Ok? <==> signer in v.c.Members()
    ensures signer in v.c.Members() ==>
              var u, held := LeaveRosca(id, v, signer).value, v.c.Deposit(signer);
              && v.c.pendingOrder.Some? && v.c.participantCount.Some? && v.c.participantCount.value > 0
              && v.c.participants[signer] < |v.c.pendingOrder.value|
              && Moved(v.l, u.l, Terms(v.c).asset, Pot(id), signer, held)
              && (held == 0 ==> u.c == Vacated(v.c, signer).Logged(LeftRosca(signer)))
              && (held > 0 ==> u.c == Vacated(v.c, signer).(deposits := v.c.deposits - {signer})
                                      .Logged(SecurityDepositClaimed(signer, held)).Logged(LeftRosca(signer)))
  {
    hide Quiet, SavingsOk, DefaultsOk, Sum, Tally, Published, Ledger.Balance, Transfer, Moved;
    if signer in v.c.Members() {
      var held := v.c.Deposit(signer);
      SumUpdate(v.c.deposits, signer, 0);
      TransferEffect(v.l, Terms(v.c).asset, Pot(id), signer, held);
      MovedNothing(v.l, Terms(v.c).asset, Pot(id), signer);
      assert |v.c.participants| > 0;
    }
  }

  lemma SumDrop(m: map<Account, nat>, k: Account)
    ensures Sum(m - {k}) == Sum(m) - Get(m, k, 0)
  {
    if k in m {
      SumRemove(m, k);
    } else {
      assert m - {k} == m;
    }
  }

  lemma PushClaimed(log: seq<Event>, p: Account, amount: nat)
    ensures var log' := log + [SecurityDepositClaimed(p, amount)];
            forall x ::
              && Tally(log', Added(x)) == Tally(log, Added(x))
              && Tally(log', Taken(x)) == Tally(log, Taken(x))
              && Tally(log', Returned(x)) == Tally(log, Returned(x)) + if x == p then amount else 0
  {
    Push(log, SecurityDepositClaimed(p, amount));
    hide Tally;
  }

  lemma RefundBooks(c: Circle, c': Circle, signer: Account)
    requires SavingsOk(c) && c'.deposits == c.deposits - {signer} && c'.Members() == c.Members()
    requires c'.log == c.log + [SecurityDepositClaimed(signer, c.Deposit(signer))]
    ensures SavingsOk(c')
  {
    hide Tally;
    PushClaimed(c.log, signer, c.Deposit(signer));
    assert forall p :: c'.Deposit(p) == if p == signer then 0 else c.Deposit(p);
    hide Circle.Deposit;
  }

  lemma LeftBooks(c: Circle, c': Circle, signer: Account)
    requires SavingsOk(c) && c.Deposit(signer) == 0
    requires c'.deposits == c.deposits && c'.Members() == c.Members() - {signer} && c'.log == c.log + [LeftRosca(signer)]
    ensures SavingsOk(c')
  {
    Push(c.log, LeftRosca(signer));
    hide Tally;
  }

  lemma PushAllDefaults(c: Circle, c': Circle, es: seq<Event>, over: nat)
    requires (forall e :: e in es ==> !e.ParticipantDefaulted?) && c'.log == c.log + es && c'.defaults == c.defaults
    requires DefaultsOk(c, over)
    ensures DefaultsOk(c', over)
    decreases |es|
  {
    if es == [] {
      assert c.log + es == c.log;
    } else {
      var mid := c.(log := c.log + [es[0]]);
      PushDefaults(c, mid, es[0], over);
      assert mid.log + es[1..] == c.log + es;
      PushAllDefaults(mid, c', es[1..], over);
    }
  }

  lemma LeaveKeepsBooks(cfg: Config, id: RoscaId, v: View, signer: Account)
    requires PendingOk(cfg, id, v.c, v.l) && signer in v.c.Members()
    ensures LeaveRosca(id, v, signer).Ok?
    ensures var c' := LeaveRosca(id, v, signer).value.c;
            Quiet(c'.log) && SavingsOk(c') && DefaultsOk(c', 0) && |c'.log| > 0 && c'.log[0] == v.c.log[0]
  {
    hide Quiet, SavingsOk, DefaultsOk, Sum, Tally, Published, Seated, Ledger.Balance, Moved, Solvent, LeaveRosca;
    LeaveIs(cfg, id, v, signer);
    var c, u := v.c, LeaveRosca(id, v, signer).value;
    var held := c.Deposit(signer);
    if held == 0 {
      PushQuiet(c.log, LeftRosca(signer));
      LeftBooks(c, u.c, signer);
      PushDefaults(c, u.c, LeftRosca(signer), 0);
    } else {
      var claimed := SecurityDepositClaimed(signer, held);
      PushQuiet(c.log, claimed);
      PushQuiet(c.log + [claimed], LeftRosca(signer));
      var mid := c.(deposits := c.deposits - {signer}, log := c.log + [claimed]);
      RefundBooks(c, mid, signer);
      LeftBooks(mid, u.c, signer);
      assert u.c.log == c.log + [claimed, LeftRosca(signer)];
      PushAllDefaults(c, u.c, [claimed, LeftRosca(signer)], 0);
    }
  }

  lemma LeaveKeepsSolvent(cfg: Config, id: RoscaId, v: View, signer: Account)
    requires PendingOk(cfg, id, v.c, v.l) && signer in v.c.Members()
    ensures LeaveRosca(id, v, signer).Ok?
    ensures var u := LeaveRosca(id, v, signer).value;
            u.l.Balance(Terms(v.c).asset, Pot(id)) - Sum(u.c.deposits) == v.l.Balance(Terms(v.c).asset, Pot(id)) - Sum(v.c.deposits)
  {
    hide Quiet, SavingsOk, DefaultsOk, Sum, Tally, Published, Seated, Ledger.Balance, LeaveRosca;
    LeaveIs(cfg, id, v, signer);
    SumDrop(v.c.deposits, signer);
  }

  lemma OneFewer(ps: map<Account, nat>, signer: Account)
    requires signer in ps
    ensures |ps - {signer}| == |ps| - 1
  {
    assert (ps - {signer}).Keys == ps.Keys - {signer};
  }

  lemma LeavePending(cfg: Config, id: RoscaId, v: View, signer: Account)
    requires PendingOk(cfg, id, v.c, v.l) && LeaveRosca(id, v, signer).Ok?
    ensures PendingOk(cfg, id, LeaveRosca(id, v, signer).value.c, LeaveRosca(id, v, signer).value.l)
  {
    hide Quiet, SavingsOk, DefaultsOk, Sum, Tally, Published, Seated, Ledger.Balance, Moved, LeaveRosca;
    LeaveIs(cfg, id, v, signer);
    LeaveKeepsBooks(cfg, id, v, signer);
    LeaveKeepsSolvent(cfg, id, v, signer);
    SeatLeaves(v.c.pendingOrder.value, v.c.participants, signer);
    OneFewer(v.c.participants, signer);
  }

  /** Leaving undoes joining: everything but the event log is as before. */
  lemma LeaveUndoesJoin(cfg: Config, id: RoscaId, v: View, now: u64, signer: Account, position: Option<u32>)
    requires PendingOk(cfg, id, v.c, v.l) && signer.Member? && JoinRosca(v.c, now, signer, position).Ok?
    ensures LeaveRosca(id, View(JoinRosca(v.c, now, signer, position).value, v.l), signer)
         == Ok(View(v.c.(log := v.c.log + [JoinedRosca(signer)] + [LeftRosca(signer)]), v.l))
  {
    hide Quiet, DefaultsOk, Sum, Tally, Published, Seated, Ledger.Balance, Solvent, Transfer;
    var c' := JoinRosca(v.c, now, signer, position).value;
    var k := PickSlot(v.c.pendingOrder.value, position).value;
    assert c'.participants - {signer} == v.c.participants;
    assert c'.pendingOrder.value[k := None] == v.c.pendingOrder.value;
  }
}

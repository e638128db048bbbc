/** The defaulter loop in closed form. */
module Settlement {
  import opened Prelude
  import opened Storage
  import opened Rules
  import opened Journal

  /** Those of `ps` that the loop has to deal with: not the claimant and no contribution yet. */
  ghost function Late(c: Circle, claimant: Account, ps: seq<Account>): set<Account> {
    set p | p in ps && p != claimant && p !in c.contributors
  }

  function Due(c: Circle, amount: u32, p: Account): nat {
    Min(c.Deposit(p), amount)
  }

  /** What is collected from each late participant. */
  ghost function Dues(c: Circle, amount: u32, late: set<Account>): map<Account, nat> {
    map p | p in late :: Due(c, amount, p)
  }

  /** What settling `late` adds to each tally of the log. */
  ghost function LateWeight(c: Circle, amount: u32, r: Account, late: set<Account>, q: Query): nat {
    match q
    case Covered(p, x) => If(x == r && p in late && c.Deposit(p) >= amount)
    case CoveredFor(p) => If(p in late && c.Deposit(p) >= amount)
    case Missed(p, x) => If(x == r && p in late && c.Deposit(p) < amount)
    case MissedBy(p) => If(p in late && c.Deposit(p) < amount)
    case Docked(p, x) => If(x == r && p in late && c.Deposit(p) > 0)
    case Taken(p) => if p in late then Due(c, amount, p) else 0
    case _ => 0
  }

  function Bump(n: u32): u32 {
    if n < U32_MAX then n + 1 else n
  }

  ghost predicate OnlyMoneyMoved(c: Circle, c': Circle) {
    c' == c.(deposits := c'.deposits, defaults := c'.defaults, log := c'.log)
  }

  /** Each late participant loses exactly what is due, nobody else loses anything. */
  ghost predicate DepositsSettled(amount: u32, c: Circle, c': Circle, late: set<Account>) {
    && c'.deposits.Keys == c.deposits.Keys
    && (forall p :: c'.Deposit(p) == c.Deposit(p) - (if p in late then Due(c, amount, p) else 0))
    && Sum(c'.deposits) == Sum(c.deposits) - Sum(Dues(c, amount, late))
  }

  /** A late participant is a defaulter exactly when the deposit falls short of the amount. */
  ghost predicate DefaultsSettled(amount: u32, c: Circle, c': Circle, late: set<Account>) {
    forall p :: c'.Defaults(p) == if p in late && c.Deposit(p) < amount then Bump(c.Defaults(p)) else c.Defaults(p)
  }

  ghost predicate LogSettled(amount: u32, r: Account, c: Circle, c': Circle, late: set<Account>) {
    && (forall q :: Tally(c'.log, q) == Tally(c.log, q) + LateWeight(c, amount, r, late, q))
    && Published(c'.log) == Published(c.log)
  }

  ghost predicate Settled(d: Details, r: Account, c: Circle, c': Circle, late: set<Account>) {
    && OnlyMoneyMoved(c, c')
    && DepositsSettled(d.amount, c, c', late)
    && DefaultsSettled(d.amount, c, c', late)
    && LogSettled(d.amount, r, c, c', late)
  }

  lemma SumSingle(c: Circle, amount: u32, p: Account)
    ensures Sum(Dues(c, amount, {p})) == Due(c, amount, p)
  {
    assert Dues(c, amount, {p}) == map[][p := Due(c, amount, p)];
    SumUpdate(map[], p, Due(c, amount, p));
  }

  /** The storage written by one turn of the loop for a late participant. */
  ghost function SettledCircle(d: Details, r: Account, c: Circle, p: Account): Circle {
    var held := c.Deposit(p);
    if held >= d.amount then
      c.(deposits := c.deposits[p := held - d.amount]).Logged(DepositDeducted(p, r, d.amount, true))
    else
      var c1 := if held > 0 then c.(deposits := c.deposits[p := 0]).Logged(DepositDeducted(p, r, held, false)) else c;
      c1.(defaults := c1.defaults[p := Bump(c1.Defaults(p))]).Logged(ParticipantDefaulted(r, p))
  }

  lemma LoggedTally(c: Circle, e: Event)
    ensures forall q :: Tally(c.Logged(e).log, q) == Tally(c.log, q) + Weight(e, q)
    ensures Published(c.Logged(e).log) == if e.RoscaStarted? then e.rounds else Published(c.log)
  {
    Push(c.log, e);
  }

  /** The three kinds of turn, in terms of the tallies they raise. */
  lemma LateWeights(c: Circle, d: Details, r: Account, p: Account)
    requires d.amount > 0
    ensures c.Deposit(p) >= d.amount ==>
              forall q :: Weight(DepositDeducted(p, r, d.amount, true), q) == LateWeight(c, d.amount, r, {p}, q)
    ensures 0 < c.Deposit(p) < d.amount ==>
              forall q :: Weight(DepositDeducted(p, r, c.Deposit(p), false), q) + Weight(ParticipantDefaulted(r, p), q)
                          == LateWeight(c, d.amount, r, {p}, q)
    ensures c.Deposit(p) == 0 ==>
              forall q :: Weight(ParticipantDefaulted(r, p), q) == LateWeight(c, d.amount, r, {p}, q)
  {
  }

  lemma DepositDocked(amount: u32, c: Circle, c': Circle, p: Account)
    requires c'.deposits == if c.Deposit(p) == 0 then c.deposits else c.deposits[p := c.Deposit(p) - Due(c, amount, p)]
    ensures DepositsSettled(amount, c, c', {p})
  {
    hide Sum, Dues;
    SumSingle(c, amount, p);
    SumUpdate(c.deposits, p, c.Deposit(p) - Due(c, amount, p));
  }

  lemma SettledCircleFields(d: Details, r: Account, c: Circle, p: Account)
    requires d.amount > 0
    ensures OnlyMoneyMoved(c, SettledCircle(d, r, c, p))
    ensures SettledCircle(d, r, c, p).deposits
         == if c.Deposit(p) == 0 then c.deposits else c.deposits[p := c.Deposit(p) - Due(c, d.amount, p)]
    ensures DefaultsSettled(d.amount, c, SettledCircle(d, r, c, p), {p})
  {
  }

  lemma SettledCircleLog(d: Details, r: Account, c: Circle, p: Account)
    requires d.amount > 0
    ensures LogSettled(d.amount, r, c, SettledCircle(d, r, c, p), {p})
  {
    hide Tally, Weight, LateWeight, Published;
    var held := c.Deposit(p);
    LateWeights(c, d, r, p);
    if held >= d.amount {
      LoggedTally(c.(deposits := c.deposits[p := held - d.amount]), DepositDeducted(p, r, d.amount, true));
    } else {
      var c0 := c.(deposits := c.deposits[p := 0]);
      var c1 := if held > 0 then c0.Logged(DepositDeducted(p, r, held, false)) else c;
      if held > 0 {
        LoggedTally(c0, DepositDeducted(p, r, held, false));
      }
      LoggedTally(c1.(defaults := c1.defaults[p := Bump(c1.Defaults(p))]), ParticipantDefaulted(r, p));
    }
  }

  lemma SettledCircleFacts(d: Details, r: Account, c: Circle, p: Account)
    requires d.amount > 0
    ensures Settled(d, r, c, SettledCircle(d, r, c, p), {p})
  {
    hide OnlyMoneyMoved, DepositsSettled, DefaultsSettled, LogSettled, SettledCircle, Due, Circle.Deposit;
    SettledCircleFields(d, r, c, p);
    DepositDocked(d.amount, c, SettledCircle(d, r, c, p), p);
    SettledCircleLog(d, r, c, p);
  }

  /** One turn of the loop for a late participant succeeds when the pot holds what is due. */
  lemma SettleOneLate(id: RoscaId, d: Details, r: Account, v: View, p: Account)
    requires d.amount > 0 && p != r && p !in v.c.contributors && r != Pot(id)
    requires v.l.Balance(d.asset, Pot(id)) >= Due(v.c, d.amount, p)
    ensures SettleOne(id, d, r, v, p).Ok?
    ensures SettleOne(id, d, r, v, p).value.c == SettledCircle(d, r, v.c, p)
    ensures Moved(v.l, SettleOne(id, d, r, v, p).value.l, d.asset, Pot(id), r, Due(v.c, d.amount, p))
  {
    MovedNothing(v.l, d.asset, Pot(id), r);
    hide Transfer, Moved, Ledger.Balance;
    TransferEffect(v.l, d.asset, Pot(id), r, Due(v.c, d.amount, p));
  }

  lemma MovedNothing(l: Ledger, a: Asset, from: Account, to: Account)
    ensures Moved(l, l, a, from, to, 0)
  {
  }

  lemma MovedTwice(l: Ledger, l1: Ledger, l2: Ledger, a: Asset, from: Account, to: Account, x: nat, y: nat)
    requires from != to && Moved(l, l1, a, from, to, x) && Moved(l1, l2, a, from, to, y)
    ensures Moved(l, l2, a, from, to, x + y)
  {
  }

  lemma LateWeightThen(c: Circle, c1: Circle, amount: u32, r: Account, late: set<Account>, p: Account)
    requires p !in late && c1.Deposit(p) == c.Deposit(p)
    ensures forall q :: LateWeight(c1, amount, r, {p}, q) + LateWeight(c, amount, r, late, q) == LateWeight(c, amount, r, late + {p}, q)
  {
  }

  lemma DepositsSettledThen(amount: u32, c: Circle, c1: Circle, c2: Circle, late: set<Account>, p: Account)
    requires p !in late
    requires DepositsSettled(amount, c, c1, late) && DepositsSettled(amount, c1, c2, {p})
    ensures DepositsSettled(amount, c, c2, late + {p})
    ensures Sum(Dues(c, amount, late + {p})) == Sum(Dues(c, amount, late)) + Due(c, amount, p)
  {
    hide Sum;
    assert c1.Deposit(p) == c.Deposit(p);
    SumSingle(c1, amount, p);
    var dues := Dues(c, amount, late);
    assert Dues(c, amount, late + {p}) == dues[p := Due(c, amount, p)];
    SumUpdate(dues, p, Due(c, amount, p));
  }

  lemma SettledThen(d: Details, r: Account, c: Circle, c1: Circle, c2: Circle, late: set<Account>, p: Account)
    requires p !in late
    requires Settled(d, r, c, c1, late) && Settled(d, r, c1, c2, {p})
    ensures Settled(d, r, c, c2, late + {p})
    ensures Sum(Dues(c, d.amount, late + {p})) == Sum(Dues(c, d.amount, late)) + Due(c, d.amount, p)
  {
    DepositsSettledThen(d.amount, c, c1, c2, late, p);
    assert c1.Deposit(p) == c.Deposit(p);
    LateWeightThen(c, c1, d.amount, r, late, p);
    hide DepositsSettled, Tally, Sum, LateWeight, Dues, Due, Published, Circle.Deposit;
  }

  lemma SettledNobody(d: Details, r: Account, c: Circle)
    ensures Settled(d, r, c, c, {})
    ensures Sum(Dues(c, d.amount, {})) == 0
  {
    assert Dues(c, d.amount, {}) == map[];
  }

  lemma SettleOneIdle(id: RoscaId, d: Details, r: Account, v: View, p: Account)
    requires p == r || p in v.c.contributors
    ensures SettleOne(id, d, r, v, p) == Ok(v)
  {
  }

  lemma SettledFrame(d: Details, r: Account, c: Circle, c': Circle, late: set<Account>)
    requires Settled(d, r, c, c', late)
    ensures c'.contributors == c.contributors
    ensures Sum(c'.deposits) == Sum(c.deposits) - Sum(Dues(c, d.amount, late))
    ensures forall p :: p !in late ==> Due(c', d.amount, p) == Due(c, d.amount, p)
  {
    hide Sum, Tally;
  }

  /** What the pot paid out is what the recorded deposits went down by, so it still covers them. */
  lemma EnoughInPot(id: RoscaId, d: Details, r: Account, v: View, v1: View, late: set<Account>, p: Account)
    requires r != Pot(id) && v.l.Balance(d.asset, Pot(id)) >= Sum(v.c.deposits)
    requires Settled(d, r, v.c, v1.c, late)
    requires Moved(v.l, v1.l, d.asset, Pot(id), r, Sum(Dues(v.c, d.amount, late)))
    ensures v1.l.Balance(d.asset, Pot(id)) >= Due(v1.c, d.amount, p)
  {
    hide Sum, Tally;
    SumUpdate(v1.c.deposits, p, 0);
  }

  /** The whole loop: with a solvent pot and no participant listed twice it cannot fail, and the claimant
      receives, from the pot alone, the sum over the late participants of min(deposit, amount). */
  lemma {:induction false} SettleClosedForm(id: RoscaId, d: Details, r: Account, v: View, ps: seq<Account>)
    requires d.amount > 0 && r != Pot(id) && Distinct(ps)
    requires v.l.Balance(d.asset, Pot(id)) >= Sum(v.c.deposits)
    ensures Settle(id, d, r, v, ps).Ok?
    ensures Settled(d, r, v.c, Settle(id, d, r, v, ps).value.c, Late(v.c, r, ps))
    ensures Moved(v.l, Settle(id, d, r, v, ps).value.l, d.asset, Pot(id), r, Sum(Dues(v.c, d.amount, Late(v.c, r, ps))))
  {
    hide Settled, Moved, Sum, SettleOne, Due, Dues, SettledCircle, Ledger.Balance;
    var late := Late(v.c, r, ps);
    if ps == [] {
      SettledNobody(d, r, v.c);
      MovedNothing(v.l, d.asset, Pot(id), r);
      assert late == {};
    } else {
      var init, p := ps[..|ps| - 1], ps[|ps| - 1];
      var late0 := Late(v.c, r, init);
      SettleClosedForm(id, d, r, v, init);
      var v1 := Settle(id, d, r, v, init).value;
      assert ps == init + [p] && p !in init;
      SettledFrame(d, r, v.c, v1.c, late0);
      if p == r || p in v.c.contributors {
        assert late == late0;
        SettleOneIdle(id, d, r, v1, p);
      } else {
        assert late == late0 + {p} && p !in late0;
        EnoughInPot(id, d, r, v, v1, late0, p);
        SettleOneLate(id, d, r, v1, p);
        var v2 := SettleOne(id, d, r, v1, p).value;
        SettledCircleFacts(d, r, v1.c, p);
        SettledThen(d, r, v.c, v1.c, v2.c, late0, p);
        MovedTwice(v.l, v1.l, v2.l, d.asset, Pot(id), r, Sum(Dues(v.c, d.amount, late0)), Due(v.c, d.amount, p));
      }
    }
  }
}

/** A run that shows how a contribution to oneself lets another member out of a round. */
module Freeloader {
  import opened Prelude
  import opened Storage
  import opened Rules
  import opened Schedule
  import opened Journal
  import opened Runs

  const ANNA := Member(1)
  const BEN := Member(2)
  const TERMS := Details(false, 2, 2, 100, USDT, 10, 5)
  const START := World(Config(150, 149), 0, map[], Ledger(map[ANNA := 1000, BEN := 1000], map[]), 0)

  const FIRST := RoundInfo(1, 10, [BEN], ANNA)
  const SECOND := RoundInfo(2, 20, [ANNA], BEN)

  const CREATED := EMPTY.(
    pending := Some(TERMS), participants := map[ANNA := 0], invited := {ANNA, BEN}, participantCount := Some(1),
    pendingOrder := Some([Some(ANNA), None]), log := [RoscaCreated(TERMS, [ANNA, BEN], ANNA)])

  const JOINED := CREATED.(
    participants := map[ANNA := 0, BEN := 1], participantCount := Some(2),
    pendingOrder := Some([Some(ANNA), Some(BEN)]), log := CREATED.log + [JoinedRosca(BEN)])

  const STARTED := Begun(JOINED)

  lemma Creation()
    ensures CreateRosca(START.cfg, EMPTY, 0, ANNA, false, [BEN], 2, 100, USDT, 10, 5, None) == Ok(CREATED)
  {
    assert SortDedup([BEN]) == [BEN] by {
      assert [BEN][1..] == [];
    }
    var c := CreateRosca(START.cfg, EMPTY, 0, ANNA, false, [BEN], 2, 100, USDT, 10, 5, None).value;
    assert c.pendingOrder.value == [Some(ANNA), None];
    assert c.invited == {ANNA, BEN};
    assert c.log == CREATED.log by {
      assert [ANNA] + [BEN] == [ANNA, BEN];
    }
  }

  lemma Joining()
    ensures JoinRosca(CREATED, 0, BEN, None) == Ok(JOINED)
  {
    var slots := [Some(ANNA), None];
    assert slots[1..] == [None];
    assert FirstFree([None]) == Some(0);
    assert FirstFree(slots) == Some(1);
    assert slots[1 := Some(BEN)] == [Some(ANNA), Some(BEN)];
  }

  /** The circle once Anna has started it, whatever its deposits and its log. */
  function Begun(c: Circle): Circle {
    c.(pending := None, active := Some(TERMS), claimant := Some(ANNA), order := Some([ANNA, BEN]),
       nextPayBy := Some(10), finalPayBy := Some(20), log := c.log + [RoscaStarted(ANNA, [FIRST, SECOND], ANNA, 10)])
  }

  lemma Starting(c: Circle)
    requires c == JOINED.(deposits := c.deposits, log := c.log)
    ensures StartRosca(START.cfg, c, 0, ANNA, 0) == Ok(Begun(c))
  {
    hide Filled, Reverse, GenerateRounds;
    Compacting();
    Rounds();
    assert RotateRight([BEN, ANNA]) == [ANNA, BEN];
    assert AddTimes(10, 10, 1) == Ok(20) by {
      assert AddTimes(10, 10, 0) == Ok(10);
    }
  }

  lemma Compacting()
    ensures Filled(Reverse([Some(ANNA), Some(BEN)])) == [BEN, ANNA]
  {
    var slots := [Some(ANNA), Some(BEN)];
    assert slots[..1] == [Some(ANNA)];
    assert Reverse(slots) == [Some(BEN), Some(ANNA)];
    var back := [Some(BEN), Some(ANNA)];
    assert back[..1] == [Some(BEN)] && [Some(BEN)][..0] == [];
    assert Filled([Some(BEN)]) == [BEN];
  }

  lemma Rounds()
    ensures GenerateRounds(START.cfg, [BEN, ANNA], 0, 10) == Ok([FIRST, SECOND])
  {
    var order := [BEN, ANNA];
    assert order[..1] == [BEN] && [BEN][..0] == [];
    assert Without([BEN], ANNA) == [BEN] && Without([BEN], BEN) == [];
    assert Without(order, ANNA) == [BEN] && Without(order, BEN) == [ANNA];
    RoundsClosedForm(START.cfg, order, 0, 10, 2);
    var rs := GenerateRounds(START.cfg, order, 0, 10).value;
    hide RoundsUpTo, Without;
    assert rs[0] == FIRST && rs[1] == SECOND;
    assert rs == [FIRST, SECOND];
  }

  const MISSED := STARTED.(
    defaults := map[BEN := 1], claimant := Some(BEN), order := Some([BEN, ANNA]), nextPayBy := Some(20),
    log := STARTED.log + [ParticipantDefaulted(ANNA, BEN)] + [NewRoundStarted(BEN, 20)])

  lemma Missing(l: Ledger)
    ensures CloseRound(0, View(STARTED, l)) == Ok(View(MISSED, l))
  {
    var v, order := View(STARTED, l), [ANNA, BEN];
    assert order[..1] == [ANNA] && [ANNA][..0] == [];
    assert Settle(0, TERMS, ANNA, v, []) == Ok(v);
    assert Settle(0, TERMS, ANNA, v, [ANNA]) == Ok(v);
    var c1 := STARTED.(defaults := map[BEN := 1], log := STARTED.log + [ParticipantDefaulted(ANNA, BEN)]);
    assert SettleOne(0, TERMS, ANNA, v, BEN) == Ok(View(c1, l));
    assert Settle(0, TERMS, ANNA, v, order) == Ok(View(c1, l));
    assert RotateRight(order) == [BEN, ANNA];
    assert ClearPrefix({}, 1) == {};
  }

  const ENDED := Complete(MISSED.(
    contributors := {BEN}, contributionCount := 1, log := MISSED.log + [ContributionMade(BEN, BEN, 100)]))

  lemma PayingOneself(l: Ledger)
    requires l.Balance(USDT, BEN) >= 100
    ensures ContributeToRosca(0, View(STARTED, l), 15, BEN).Ok?
    ensures ContributeToRosca(0, View(STARTED, l), 15, BEN).value.c == ENDED
  {
    Missing(l);
    var v1 := View(MISSED, l);
    hide CloseRound;
    assert CheckAndComplete(MISSED) == Ok(Checked(MISSED, false));
    assert CatchUp(0, v1, 15) == Ok(CaughtUp(v1, false));
    assert CatchUp(0, View(STARTED, l), 15) == Ok(CaughtUp(v1, false));
    assert {} + {BEN} == {BEN};
  }

  const MOVES := [Create(ANNA, false, [BEN], 2, 100, USDT, 10, 5, None), Do(BEN, Join(0, None)),
                  Do(ANNA, Start(0, 0)), Elapse(15), Do(BEN, Contribute(0))]

  lemma ThreeMoves()
    ensures var w := Step(Step(Step(START, MOVES[0]), MOVES[1]), MOVES[2]);
            w.At(0) == STARTED && w.ledger == START.ledger && w.now == 0
  {
    hide CreateRosca, JoinRosca, StartRosca, Begun;
    Creation();
    Joining();
    Starting(JOINED);
    var w1, w2 := Step(START, MOVES[0]), Step(Step(START, MOVES[0]), MOVES[1]);
    assert w1.At(0) == CREATED && w1.ledger == START.ledger && w1.now == 0;
    assert w2.At(0) == JOINED && w2.ledger == START.ledger && w2.now == 0;
  }

  /** Anna and Ben start a circle; Ben misses Anna's round and contributes in the next, which pays Ben. The circle is completed,
      Anna has neither paid Ben nor defaulted, and nothing in the log or in storage accounts for it. */
  lemma SomebodyEscapes()
    ensures var c := Run(START, MOVES).At(0);
            c.completed && Marks(c.log, ANNA, BEN) == 0 && c.Defaults(ANNA) == 0
  {
    hide CreateRosca, JoinRosca, StartRosca, ContributeToRosca, Run;
    ThreeMoves();
    var w3 := Step(Step(Step(START, MOVES[0]), MOVES[1]), MOVES[2]);
    var w4 := Step(w3, MOVES[3]);
    hide CallOn;
    assert w4.At(0) == STARTED && w4.ledger == START.ledger && w4.now == 15;
    LastMove(w4);
    Unfold(START, MOVES[0], MOVES[1], MOVES[2], MOVES[3], MOVES[4]);
    NothingFromAnna();
  }

  lemma LastMove(w: World)
    requires w.At(0) == STARTED && w.ledger == START.ledger && w.now == 15
    ensures Step(w, MOVES[4]).At(0) == ENDED
  {
    PayingOneself(START.ledger);
    hide ContributeToRosca;
  }

  lemma Unfold(w: World, m1: Move, m2: Move, m3: Move, m4: Move, m5: Move)
    ensures Run(w, [m1, m2, m3, m4, m5]) == Step(Step(Step(Step(Step(w, m1), m2), m3), m4), m5)
  {
    hide Step;
    assert [m1, m2, m3, m4, m5][..4] == [m1, m2, m3, m4] && [m1, m2, m3, m4][..3] == [m1, m2, m3]
        && [m1, m2, m3][..2] == [m1, m2] && [m1, m2][..1] == [m1] && [m1][..0] == [];
    assert Run(w, [m1]) == Step(w, m1);
    assert Run(w, [m1, m2]) == Step(Run(w, [m1]), m2);
    assert Run(w, [m1, m2, m3]) == Step(Run(w, [m1, m2]), m3);
    assert Run(w, [m1, m2, m3, m4]) == Step(Run(w, [m1, m2, m3]), m4);
  }

  lemma NothingFromAnna()
    ensures Marks(ENDED.log, ANNA, BEN) == 0 && ENDED.Defaults(ANNA) == 0
  {
    hide Tally;
    var log := ENDED.log;
    assert |log| == 7;
    NoWeight(log, Paid(ANNA, BEN));
    NoWeight(log, Covered(ANNA, BEN));
    NoWeight(log, Missed(ANNA, BEN));
  }

  lemma {:induction false} NoWeight(log: seq<Event>, q: Query)
    requires forall i :: 0 <= i < |log| ==> Weight(log[i], q) == 0
    ensures Tally(log, q) == 0
  {
    if log != [] {
      NoWeight(log[..|log| - 1], q);
    }
  }
}

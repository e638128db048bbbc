/** Single runs and calls that show where the pallet or the indexer does what one would not expect. */
module Cases {
  import opened Prelude
  import opened Storage
  import opened Rules
  import opened Journal
  import opened Schedule
  import opened Deadlines
  import opened Projection
  import opened Mirror
  import opened Runs
  import opened Theorems
  import opened IndexerTheorems
  import opened Endings
  import opened Drift
  import opened Freeloader

  // ---------- a round that does not exist ----------

  const THREE := [MOVES[0], MOVES[1], MOVES[2]]
  const END := Do(ANNA, ManualEnd(0))

  lemma AfterThree()
    ensures var w := Run(START, THREE); w.At(0) == STARTED && w.ledger == START.ledger && w.now == 0 && w.nextId == 1 && w.cfg == START.cfg
  {
    hide CreateRosca, JoinRosca, StartRosca, Step;
    assert THREE == [MOVES[0]] + [MOVES[1]] + [MOVES[2]] && [MOVES[0]] == [] + [MOVES[0]];
    RunPush(START, [], MOVES[0]);
    RunPush(START, [MOVES[0]], MOVES[1]);
    RunPush(START, [MOVES[0]] + [MOVES[1]], MOVES[2]);
    ThreeMoves();
    OneCreation();
  }

  lemma OneCreation()
    ensures var w := Step(Step(Step(START, MOVES[0]), MOVES[1]), MOVES[2]); w.nextId == 1 && w.cfg == START.cfg
  {
    Creation();
    hide CreateRosca, CallOn;
  }

  lemma AfterWaiting()
    ensures var w := Run(START, THREE + [Elapse(25)]); w.At(0) == STARTED && w.ledger == START.ledger && w.now == 25
    ensures Reached(START, THREE + [Elapse(25)], Run(START, THREE + [Elapse(25)]))
  {
    hide Run, Created;
    AfterThree();
    RunPush(START, THREE, Elapse(25));
    CreatedAtMost(START, THREE + [Elapse(25)]);
  }

  lemma StartedRounds()
    ensures Published(STARTED.log) == [FIRST, SECOND] && Tally(STARTED.log, RoundStarts) == 1
  {
    var log := JOINED.log;
    Push(log, RoscaStarted(ANNA, [FIRST, SECOND], ANNA, 10));
    Push([RoscaCreated(TERMS, [ANNA, BEN], ANNA)], JoinedRosca(BEN));
    assert Tally([RoscaCreated(TERMS, [ANNA, BEN], ANNA)], RoundStarts) == 0;
  }

  /** Anna and Ben start a circle and pay nothing; after both deadlines Anna ends it. The circle has two rounds, and the
      indexer shows the third, which pays Anna again, with a cutoff later than any the pallet ever stored. */
  lemma RoundThreeOfTwo()
    ensures var c := Run(START, THREE + [Elapse(25)] + [END]).At(0);
            && c.completed && |Published(c.log)| == 2 && Project(c.log).rosca.Some?
            && Project(c.log).rosca.value.currentRoundNumber == 3
            && Project(c.log).rosca.value.currentRecipient == Some(ANNA)
            && Project(c.log).rosca.value.currentCutoff.Some? && c.nextPayBy.Some?
            && Project(c.log).rosca.value.currentCutoff.value > c.nextPayBy.value
  {
    hide Run, Well, GoodStep, ManuallyEnd, CatchUp, Tally, Published, Project, Onward, Mirrored, Created, RoundsAgree;
    AfterWaiting();
    StartedRounds();
    var ms := THREE + [Elapse(25)];
    var w := Run(START, ms);
    ReachedSound(START, ms, w);
    ManualEndWorks(START, ms, w, 0, ANNA);
    RunPush(START, ms, END);
    CreatedAtMost(START, ms + [END]);
    var w' := Run(START, ms + [END]);
    CompletedInTimeIff(w, END, 0);
    StepOnward(w, END, 0);
    SamePublished(w.At(0), w'.At(0));
    HowItEnded(START, ms + [END], w', 0);
    IndexerAgrees(START, ms + [END], w', 0);
    ShownCutoffIff(START, ms + [END], w', 0);
  }

  lemma SamePublished(c: Circle, c': Circle)
    requires Onward(c, c') && c.pending.None?
    ensures Published(c'.log) == Published(c.log)
  {
  }

  // ---------- a position beyond the slots ----------

  /** Two slots, numbered 0 and 1, and position 2, which is well below the maximum of 150. */
  lemma PositionTwoOfTwo()
    ensures CreateRosca(START.cfg, EMPTY, 0, ANNA, false, [BEN], 2, 100, USDT, 10, 5, Some(2)) == Err(Panic)
  {
    assert SortDedup([BEN]) == [BEN] by {
      assert [BEN][1..] == [];
    }
  }

  // ---------- a contribution that is refused ----------

  /** At time 15 the second round, which pays Ben, is running. Anna owes it and can pay, but is refused, since the stored
      round is still the one that pays Anna. */
  lemma DebtorRefused()
    ensures OwesAndCanPay(0, View(STARTED, START.ledger), 15, ANNA, [FIRST, SECOND], 1)
    ensures ContributeToRosca(0, View(STARTED, START.ledger), 15, ANNA) == Err(CantContributeToSelf)
  {
    hide CatchUp, Pay;
    Missing(START.ledger);
    var rs, v := [FIRST, SECOND], View(STARTED, START.ledger);
    assert Window(rs, 2, 15) == 2;
    assert Window(rs, 1, 15) == 2;
    assert CloseRounds(0, v, 1) == Ok(View(MISSED, START.ledger)) by {
      assert CloseRounds(0, v, 0) == Ok(v);
      assert CloseRounds(0, View(MISSED, START.ledger), 0) == Ok(View(MISSED, START.ledger));
    }
  }

  // ---------- an id used twice ----------

  /** `ms` followed by k more creations. */
  function ThenCreate(ms: seq<Move>, k: nat): seq<Move> {
    if k == 0 then ms else ThenCreate(ms, k - 1) + [MOVES[0]]
  }

  lemma AlwaysCreates(cfg: Config, c: Circle)
    requires cfg == START.cfg
    ensures var r := CreateRosca(cfg, c, 0, ANNA, false, [BEN], 2, 100, USDT, 10, 5, None);
            r.Ok? && r.value.active == c.active && r.value.pending.Some?
  {
    assert SortDedup([BEN]) == [BEN] by {
      assert [BEN][1..] == [];
    }
  }

  lemma {:induction false} CountingUp(k: nat)
    requires k < IDS
    ensures var w := Run(START, ThenCreate(THREE, k)); w.At(0) == STARTED && w.now == 0 && w.cfg == START.cfg && w.nextId == (k + 1) % IDS
  {
    hide Run, Step;
    if k == 0 {
      AfterThree();
    } else {
      CountingUp(k - 1);
      CreateElsewhere(Run(START, ThenCreate(THREE, k - 1)));
      RunPush(START, ThenCreate(THREE, k - 1), MOVES[0]);
    }
  }

  lemma CreateElsewhere(w: World)
    requires w.cfg == START.cfg && w.now == 0 && w.nextId != 0
    ensures var w' := Step(w, MOVES[0]); w'.At(0) == w.At(0) && w'.now == 0 && w'.cfg == w.cfg && w'.nextId == (w.nextId + 1) % IDS
  {
    hide CreateRosca;
    AlwaysCreates(w.cfg, w.At(w.nextId));
  }

  /** The wrap is within reach: after 2^32 creations the next one reuses id 0, and the circle that is active under it is
      pending as well. */
  lemma ActiveAndPending()
    ensures exists ms :: var c := Run(START, ms).At(0); c.active.Some? && c.pending.Some?
  {
    hide Run, ThenCreate;
    var ms := ThenCreate(THREE, IDS - 1);
    CountingUp(IDS - 1);
    var w := Run(START, ms);
    AlwaysCreates(w.cfg, w.At(0));
    RunPush(START, ms, MOVES[0]);
    hide CreateRosca;
    assert Run(START, ms + [MOVES[0]]).At(0).pending.Some?;
  }

  // ---------- a deposit claimed in the other asset ----------

  const ALONE := Details(false, 1, 1, 100, USDT, 10, 5)
  const FUNDS := Ledger(map[ANNA := 1000], map[BEN := 1000])
  const SOLO := World(Config(150, 149), 0, map[], FUNDS, 0)
  const ONLY := RoundInfo(1, 10, [], ANNA)

  const SOLO_CREATED := EMPTY.(
    pending := Some(ALONE), participants := map[ANNA := 0], invited := {ANNA}, participantCount := Some(1),
    pendingOrder := Some([Some(ANNA)]), log := [RoscaCreated(ALONE, [ANNA], ANNA)])

  const SOLO_SAVED := SOLO_CREATED.(
    deposits := map[ANNA := 50], log := SOLO_CREATED.log + [SecurityDepositContribution(ANNA, 50)])

  const SOLO_STARTED := SOLO_SAVED.(
    pending := None, active := Some(ALONE), claimant := Some(ANNA), order := Some([ANNA]),
    nextPayBy := Some(10), finalPayBy := Some(10), log := SOLO_SAVED.log + [RoscaStarted(ANNA, [ONLY], ANNA, 10)])

  const SOLO_CLOSED := SOLO_STARTED.(nextPayBy := Some(20), log := SOLO_STARTED.log + [NewRoundStarted(ANNA, 20)])

  const SAVED := Ledger(map[ANNA := 950, Pot(0) := 50], map[BEN := 1000])
  const GIVEN := Ledger(map[ANNA := 950, Pot(0) := 50], map[BEN := 950, Pot(0) := 50])

  const ALONE_MOVES := [Create(ANNA, false, [], 1, 100, USDT, 10, 5, None), Do(ANNA, Add(0, 50)), Do(ANNA, Start(0, 0)), Elapse(25),
                        Do(ANNA, ManualEnd(0)), Outside(USDC, BEN, Pot(0), 50), Do(ANNA, Claim(0, USDC))]

  lemma SoloCreation()
    ensures CreateRosca(SOLO.cfg, EMPTY, 0, ANNA, false, [], 1, 100, USDT, 10, 5, None) == Ok(SOLO_CREATED)
  {
    var c := CreateRosca(SOLO.cfg, EMPTY, 0, ANNA, false, [], 1, 100, USDT, 10, 5, None).value;
    assert c.pendingOrder.value == [Some(ANNA)];
    assert c.invited == {ANNA};
    assert c.log == SOLO_CREATED.log by {
      assert [ANNA] + [] == [ANNA];
    }
  }

  lemma SoloAdd()
    ensures AddDeposit(0, View(SOLO_CREATED, FUNDS), ANNA, 50) == Ok(View(SOLO_SAVED, SAVED))
  {
    assert FUNDS.usdt[ANNA := 950][Pot(0) := 50] == SAVED.usdt;
  }

  lemma SoloOrder()
    ensures Filled(Reverse([Some(ANNA)])) == [ANNA] && RotateRight([ANNA]) == [ANNA] && AddTimes(10, 10, 0) == Ok(10)
  {
    var slots := [Some(ANNA)];
    assert slots[..0] == [];
    assert Reverse(slots) == [Some(ANNA)];
  }

  lemma SoloStart()
    ensures StartRosca(SOLO.cfg, SOLO_SAVED, 0, ANNA, 0) == Ok(SOLO_STARTED)
  {
    hide Reverse, Filled, GenerateRounds, AddTimes, RotateRight, Shuffle;
    SoloOrder();
    SoloRounds();
  }

  lemma SoloRounds()
    ensures GenerateRounds(SOLO.cfg, [ANNA], 0, 10) == Ok([ONLY])
  {
    var order := [ANNA];
    assert order[..0] == [];
    assert Without(order, ANNA) == [];
    RoundsClosedForm(SOLO.cfg, order, 0, 10, 1);
    var rs := GenerateRounds(SOLO.cfg, order, 0, 10).value;
    hide RoundsUpTo, Without;
    assert rs == [ONLY];
  }

  lemma SoloEnd(l: Ledger)
    ensures ManuallyEnd(0, View(SOLO_STARTED, l), 25) == Ok(View(Complete(SOLO_CLOSED), l))
  {
    var v, order := View(SOLO_STARTED, l), [ANNA];
    assert order[..0] == [];
    assert Settle(0, ALONE, ANNA, v, []) == Ok(v);
    assert Settle(0, ALONE, ANNA, v, order) == Ok(v);
    assert RotateRight(order) == [ANNA];
    assert ClearPrefix({}, 0) == {};
    assert CloseRound(0, v) == Ok(View(SOLO_CLOSED, l));
    hide CloseRound;
    assert EndLoop(0, View(SOLO_CLOSED, l), 10) == Ok(View(SOLO_CLOSED, l));
    assert EndLoop(0, v, 10) == Ok(View(SOLO_CLOSED, l));
  }

  lemma SoloGift()
    ensures Transfer(SAVED, USDC, BEN, Pot(0), 50) == Ok(GIVEN)
  {
    assert SAVED.usdc[BEN := 950][Pot(0) := 50] == GIVEN.usdc;
  }

  lemma SoloClaim()
    ensures var r := ClaimDeposit(0, View(Complete(SOLO_CLOSED), GIVEN), 25, ANNA, USDC);
            r.Ok? && r.value.l.Balance(USDC, ANNA) == 50 && r.value.l.Balance(USDT, Pot(0)) == 50 && r.value.c.deposits == map[]
  {
    assert map[ANNA := 50] - {ANNA} == map[];
  }

  lemma SoloMoves(ms: seq<Move>)
    requires ms == ALONE_MOVES
    ensures var w := Step(Step(Step(SOLO, ms[0]), ms[1]), ms[2]); w.At(0) == SOLO_STARTED && w.ledger == SAVED && w.now == 0
  {
    hide CreateRosca, AddDeposit, StartRosca;
    SoloCreation();
    SoloAdd();
    SoloStart();
    var w1 := Step(SOLO, ms[0]);
    assert w1.At(0) == SOLO_CREATED && w1.ledger == FUNDS && w1.now == 0 && w1.cfg == SOLO.cfg;
    var w2 := Step(w1, ms[1]);
    assert w2.At(0) == SOLO_SAVED && w2.ledger == SAVED && w2.now == 0 && w2.cfg == SOLO.cfg;
  }

  lemma SoloLater(w: World, ms: seq<Move>)
    requires ms == ALONE_MOVES && w.At(0) == SOLO_STARTED && w.ledger == SAVED && w.now == 0
    ensures var w' := Step(Step(Step(w, ms[3]), ms[4]), ms[5]); w'.At(0) == Complete(SOLO_CLOSED) && w'.ledger == GIVEN && w'.now == 25
  {
    hide ManuallyEnd, Transfer;
    SoloEnd(SAVED);
    SoloGift();
    var w1 := Step(w, ms[3]);
    assert w1.At(0) == SOLO_STARTED && w1.ledger == SAVED && w1.now == 25;
    var w2 := Step(w1, ms[4]);
    assert w2.At(0) == Complete(SOLO_CLOSED) && w2.ledger == SAVED && w2.now == 25;
  }

  /** Anna runs a circle alone, with a deposit of 50 USDT; Ben sends 50 USDC to its account. Anna's claim in USDC is
      accepted: Ben's gift goes to Anna, no deposit is recorded any more, and the 50 USDT stay in the account. */
  lemma ClaimedInTheOtherAsset()
    ensures var w := Run(SOLO, ALONE_MOVES);
            w.ledger.Balance(USDC, ANNA) == 50 && w.ledger.Balance(USDT, Pot(0)) == 50 && w.At(0).deposits == map[]
  {
    hide Step, Run;
    var ms := ALONE_MOVES;
    forall k | 0 <= k < 7 ensures Run(SOLO, ms[..k + 1]) == Step(Run(SOLO, ms[..k]), ms[k]) {
      NextMove(SOLO, ms, k);
    }
    NoMoves(SOLO, ms);
    SoloMoves(ms);
    SoloLater(Run(SOLO, ms[..3]), ms);
    ClaimMove(Run(SOLO, ms[..6]));
    assert ms[..7] == ms;
  }

  lemma NextMove(w: World, ms: seq<Move>, k: nat)
    requires k < |ms|
    ensures Run(w, ms[..k + 1]) == Step(Run(w, ms[..k]), ms[k])
  {
    assert ms[..k + 1][..k] == ms[..k];
  }

  lemma NoMoves(w: World, ms: seq<Move>)
    ensures Run(w, ms[..0]) == w
  {
  }

  lemma ClaimMove(w: World)
    requires w.At(0) == Complete(SOLO_CLOSED) && w.ledger == GIVEN && w.now == 25
    ensures var w' := Step(w, Do(ANNA, Claim(0, USDC)));
            w'.ledger.Balance(USDC, ANNA) == 50 && w'.ledger.Balance(USDT, Pot(0)) == 50 && w'.At(0).deposits == map[]
  {
    hide ClaimDeposit;
    SoloClaim();
  }

  // ---------- a deposit that the indexer does not lower ----------

  const HOLDING := JOINED.(deposits := map[BEN := 300], log := JOINED.log + [SecurityDepositContribution(BEN, 300)])
  const HELD := Ledger(map[ANNA := 1000, BEN := 700, Pot(0) := 300], map[])
  const PAID_OUT := Ledger(map[ANNA := 1100, BEN := 700, Pot(0) := 200], map[])

  const COVERED := Begun(HOLDING).(
    deposits := map[BEN := 200], claimant := Some(BEN), order := Some([BEN, ANNA]), nextPayBy := Some(20),
    log := Begun(HOLDING).log + [DepositDeducted(BEN, ANNA, 100, true)] + [NewRoundStarted(BEN, 20)])

  const DEFAULTED := COVERED.(
    defaults := map[ANNA := 1], claimant := Some(ANNA), order := Some([ANNA, BEN]), nextPayBy := Some(30),
    log := COVERED.log + [ParticipantDefaulted(BEN, ANNA)] + [NewRoundStarted(ANNA, 30)])

  const DEPOSIT_MOVES := [MOVES[0], MOVES[1], Do(BEN, Add(0, 300)), MOVES[2], Elapse(25), END]

  lemma Depositing()
    ensures AddDeposit(0, View(JOINED, START.ledger), BEN, 300) == Ok(View(HOLDING, HELD))
  {
    assert START.ledger.usdt[BEN := 700][Pot(0) := 300] == HELD.usdt;
  }

  lemma Covering()
    ensures CloseRound(0, View(Begun(HOLDING), HELD)) == Ok(View(COVERED, PAID_OUT))
  {
    var c := Begun(HOLDING);
    var v, order := View(c, HELD), [ANNA, BEN];
    assert order[..1] == [ANNA] && [ANNA][..0] == [];
    assert Settle(0, TERMS, ANNA, v, []) == Ok(v);
    assert Settle(0, TERMS, ANNA, v, [ANNA]) == Ok(v);
    assert HELD.usdt[Pot(0) := 200][ANNA := 1100] == PAID_OUT.usdt;
    assert Transfer(HELD, USDT, Pot(0), ANNA, 100) == Ok(PAID_OUT);
    assert c.deposits[BEN := 200] == map[BEN := 200];
    var c1 := c.(deposits := map[BEN := 200], log := c.log + [DepositDeducted(BEN, ANNA, 100, true)]);
    assert SettleOne(0, TERMS, ANNA, v, BEN) == Ok(View(c1, PAID_OUT));
    assert Settle(0, TERMS, ANNA, v, order) == Ok(View(c1, PAID_OUT));
    assert RotateRight(order) == [BEN, ANNA];
    assert ClearPrefix({}, 1) == {};
  }

  lemma Defaulting(l: Ledger)
    ensures CloseRound(0, View(COVERED, l)) == Ok(View(DEFAULTED, l))
  {
    var v, order := View(COVERED, l), [BEN, ANNA];
    assert order[..1] == [BEN] && [BEN][..0] == [];
    assert Settle(0, TERMS, BEN, v, []) == Ok(v);
    assert Settle(0, TERMS, BEN, v, [BEN]) == Ok(v);
    var c1 := COVERED.(defaults := map[ANNA := 1], log := COVERED.log + [ParticipantDefaulted(BEN, ANNA)]);
    assert SettleOne(0, TERMS, BEN, v, ANNA) == Ok(View(c1, l));
    assert Settle(0, TERMS, BEN, v, order) == Ok(View(c1, l));
    assert RotateRight(order) == [ANNA, BEN];
    assert ClearPrefix({}, 1) == {};
  }

  lemma EndingBoth()
    ensures ManuallyEnd(0, View(Begun(HOLDING), HELD), 25) == Ok(View(Complete(DEFAULTED), PAID_OUT))
  {
    Covering();
    Defaulting(PAID_OUT);
    hide CloseRound;
    assert EndLoop(0, View(DEFAULTED, PAID_OUT), 20) == Ok(View(DEFAULTED, PAID_OUT));
    assert EndLoop(0, View(COVERED, PAID_OUT), 20) == Ok(View(DEFAULTED, PAID_OUT));
    assert EndLoop(0, View(Begun(HOLDING), HELD), 20) == Ok(View(DEFAULTED, PAID_OUT));
  }

  lemma DepositSteps(ms: seq<Move>)
    requires ms == DEPOSIT_MOVES
    ensures var w := Step(Step(Step(Step(START, ms[0]), ms[1]), ms[2]), ms[3]); w.At(0) == Begun(HOLDING) && w.ledger == HELD && w.now == 0
  {
    hide CreateRosca, JoinRosca, AddDeposit, StartRosca, Begun;
    Creation();
    Joining();
    Depositing();
    Starting(HOLDING);
    var w1 := Step(START, ms[0]);
    assert w1.At(0) == CREATED && w1.ledger == START.ledger && w1.now == 0 && w1.cfg == START.cfg;
    var w2 := Step(w1, ms[1]);
    assert w2.At(0) == JOINED && w2.ledger == START.ledger && w2.now == 0 && w2.cfg == START.cfg;
    var w3 := Step(w2, ms[2]);
    assert w3.At(0) == HOLDING && w3.ledger == HELD && w3.now == 0 && w3.cfg == START.cfg;
  }

  lemma DepositEnd(w: World, ms: seq<Move>)
    requires ms == DEPOSIT_MOVES && w.At(0) == Begun(HOLDING) && w.ledger == HELD && w.now == 0
    ensures Step(Step(w, ms[4]), ms[5]).At(0) == Complete(DEFAULTED)
  {
    hide ManuallyEnd, Begun;
    EndingBoth();
    var w1 := Step(w, ms[4]);
    assert w1.At(0) == Begun(HOLDING) && w1.ledger == HELD && w1.now == 25;
  }

  lemma SomethingTaken()
    ensures Tally(Complete(DEFAULTED).log, Taken(BEN)) > 0
  {
    var log := Begun(HOLDING).log;
    var log1 := log + [DepositDeducted(BEN, ANNA, 100, true)];
    Push(log, DepositDeducted(BEN, ANNA, 100, true));
    Push(log1, NewRoundStarted(BEN, 20));
    Push(COVERED.log, ParticipantDefaulted(BEN, ANNA));
    Push(COVERED.log + [ParticipantDefaulted(BEN, ANNA)], NewRoundStarted(ANNA, 30));
    Push(DEFAULTED.log, RoscaComplete);
    hide Tally;
  }

  /** Ben deposits 300 and misses Anna's round, which the deposit covers. Ben can claim 200; the indexer shows more. */
  lemma DepositNotLowered()
    ensures var c := Run(START, DEPOSIT_MOVES).At(0); c.completed && c.Deposit(BEN) == 200 && Shown(c.log, BEN) > 200
  {
    hide Step, Run, Shown, Tally, Created, Begun;
    var ms := DEPOSIT_MOVES;
    forall k | 0 <= k < 6 ensures Run(START, ms[..k + 1]) == Step(Run(START, ms[..k]), ms[k]) {
      NextMove(START, ms, k);
    }
    NoMoves(START, ms);
    DepositSteps(ms);
    DepositEnd(Run(START, ms[..4]), ms);
    assert ms[..6] == ms;
    CreatedAtMost(START, ms);
    SomethingTaken();
    ShownDepositIff(START, ms, Run(START, ms), 0, BEN);
  }
}

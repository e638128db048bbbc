/** The promises of the pallet and of the indexer, as statements about every run from an empty pallet. */
module Theorems {
  import opened Prelude
  import opened Storage
  import opened Rules
  import opened Journal
  import opened Schedule
  import opened Shuffles
  import opened Rota
  import opened Accounts
  import opened Circles
  import opened Deadlines
  import opened Membership
  import opened Launch
  import opened Payments
  import opened Deposits
  import opened Ledgers
  import opened Chronicle
  import opened Mirror
  import opened Accounting
  import opened Runs
  import opened Agreement

  /** A state some run leads to, of at most 2^32 accepted creations: beyond that ids are used again. */
  ghost predicate Reached(w0: World, ms: seq<Move>, w: World) {
    Genesis(w0) && Created(w0, ms) <= IDS && w == Run(w0, ms)
  }

  lemma ReachedSound(w0: World, ms: seq<Move>, w: World)
    requires Reached(w0, ms, w)
    ensures Sound(w) && AllMirrored(w) && FreshRun(w0, ms)
    ensures forall j: RoscaId :: w.Has(j) <==> j < Created(w0, ms)
  {
    hide Well, Mirrored, Created;
    GenesisSound(w0);
    IdsInOrder(w0, ms);
    RunSound(w0, ms);
    RunMirror(w0, ms);
  }

  // ---------- lifecycle ----------

  /** With k creations accepted, every id below k is in exactly one of the three phases and every other id is unused. */
  lemma OnePhase(w0: World, ms: seq<Move>, w: World, id: RoscaId)
    requires Reached(w0, ms, w)
    ensures w.Has(id) <==> id < Created(w0, ms)
    ensures w.Has(id) ==> If(w.At(id).pending.Some?) + If(w.At(id).active.Some?) + If(w.At(id).completed) == 1
  {
    hide Well, Mirrored, Running, Finished, PendingOk;
    ReachedSound(w0, ms, w);
    if w.Has(id) {
      WellCases(w.cfg, id, w.At(id), w.ledger);
    }
  }

  /** The counter wraps after 2^32 creations, and a creation never looks at what its id already holds: the new circle
      is in exactly one phase if and only if no started circle was stored under that id. */
  lemma CreationOnUsedId(w: World, m: Move)
    requires m.Create? && Step(w, m) != w
    ensures Step(w, m).nextId == (w.nextId + 1) % IDS
    ensures var c, c' := w.At(w.nextId), Step(w, m).At(w.nextId);
            If(c'.pending.Some?) + If(c'.active.Some?) + If(c'.completed) == 1 <==> c.active.None? && !c.completed
  {
    hide SortDedup;
  }

  function Phase(c: Circle): nat {
    if c.completed then 2 else if c.active.Some? then 1 else 0
  }

  /** What one move leaves as it was about an existing circle. */
  ghost predicate Onward(c: Circle, c': Circle) {
    && Phase(c) <= Phase(c')
    && (c.pending.None? ==> c'.pending.None? && Published(c'.log) == Published(c.log))
    && HasTerms(c) && HasTerms(c') && Terms(c') == Terms(c)
  }

  lemma StepOnward(w: World, m: Move, id: RoscaId)
    requires Sound(w) && Fresh(w, m) && w.Has(id)
    ensures Onward(w.At(id), Step(w, m).At(id)) && Step(w, m).Has(id)
  {
    hide Well, PendingOk, Running, Finished, CallOn, CreateRosca, Transfer, Kept, Surplus, Gain, Tally, Published;
    StepSound(w, m);
    WellCases(w.cfg, id, w.At(id), w.ledger);
    WellTerms(w.cfg, id, w.At(id), w.ledger);
    var w' := Step(w, m);
    if m.Do? && m.call.id == id && w' != w {
      DoSound(w, m.signer, m.call);
      WellCases(w.cfg, id, w'.At(id), w'.ledger);
    }
  }

  lemma WellTerms(cfg: Config, id: RoscaId, c: Circle, l: Ledger)
    requires Well(cfg, id, c, l)
    ensures HasTerms(c) && Solvent(id, c, l) && SavingsOk(c)
  {
    hide Seating, Quiet, SavingsOk, DefaultsOk, Solvent, BooksOk, Tally, Published, OrderAt, ScheduleFor, DueAt, Collecting;
  }

  /** Phases only move forward, and a schedule once published is never replaced. */
  lemma {:induction false} RunOnward(w: World, ms: seq<Move>, id: RoscaId)
    requires Sound(w) && FreshRun(w, ms) && w.Has(id)
    ensures Onward(w.At(id), Run(w, ms).At(id))
  {
    hide Well, Step, Published;
    RunSound(w, ms);
    if ms == [] {
      WellTerms(w.cfg, id, w.At(id), w.ledger);
    } else {
      var before := ms[..|ms| - 1];
      RunOnward(w, before, id);
      RunSound(w, before);
      StepOnward(Run(w, before), ms[|ms| - 1], id);
    }
  }

  /** A call on one circle changes no other circle and no other circle's pot, and conserves every asset. */
  lemma CallsAreIsolated(w: World, signer: Account, call: Call, j: RoscaId)
    requires Sound(w) && j != call.id
    ensures var w' := Step(w, Do(signer, call));
            && w'.At(j) == w.At(j)
            && (forall a: Asset :: w'.ledger.Balance(a, Pot(j)) == w.ledger.Balance(a, Pot(j)))
            && (forall a: Asset :: w'.ledger.Supply(a) == w.ledger.Supply(a))
  {
    hide Well, CallOn, Gain, Ledger.Supply, Ledger.Balance, Published;
    DoSound(w, signer, call);
  }

  lemma StepSupply(w: World, m: Move, a: Asset)
    requires Sound(w)
    ensures Step(w, m).ledger.Supply(a) == w.ledger.Supply(a)
  {
    hide Well, CallOn, Gain, Ledger.Supply, Ledger.Balance, Published, CreateRosca, Transfer;
    if m.Do? {
      DoSound(w, m.signer, m.call);
    } else if m.Outside? && Step(w, m) != w {
      TransferEffect(w.ledger, m.asset, m.from, m.to, m.sum);
      TransferKeepsSupply(w.ledger, m.asset, m.from, m.to, m.sum);
    }
  }

  /** No run creates or destroys any amount of any asset. */
  lemma {:induction false} SupplyConserved(w: World, ms: seq<Move>, a: Asset)
    requires Sound(w) && FreshRun(w, ms)
    ensures Run(w, ms).ledger.Supply(a) == w.ledger.Supply(a)
  {
    hide Well, Step, Ledger.Supply;
    if ms != [] {
      SupplyConserved(w, ms[..|ms| - 1], a);
      RunSound(w, ms[..|ms| - 1]);
      StepSupply(Run(w, ms[..|ms| - 1]), ms[|ms| - 1], a);
    }
  }

  // ---------- solvency ----------

  /** In every reachable state each circle's account covers all its recorded deposits, and every member's
      deposits add up: added = returned + taken + held. */
  lemma AlwaysSolvent(w0: World, ms: seq<Move>, w: World, id: RoscaId)
    requires Reached(w0, ms, w) && w.Has(id)
    ensures HasTerms(w.At(id)) && w.ledger.Balance(Terms(w.At(id)).asset, Pot(id)) >= Sum(w.At(id).deposits)
    ensures forall p :: Tally(w.At(id).log, Added(p))
                     == Tally(w.At(id).log, Returned(p)) + Tally(w.At(id).log, Taken(p)) + w.At(id).Deposit(p)
    ensures forall p :: w.At(id).Deposit(p) > 0 ==> p in w.At(id).Members()
  {
    hide Well, Mirrored;
    ReachedSound(w0, ms, w);
    WellTerms(w.cfg, id, w.At(id), w.ledger);
  }

  // ---------- the schedule ----------

  /** The state of an active circle is foretold by the schedule published at its start and the number of
      rounds announced: claimant, deadline, order, and room for a bounded clear. */
  ghost predicate Foretold(c: Circle, f: pos64, rs: seq<RoundInfo>, r: nat) {
    && 1 <= r <= |rs|
    && c.claimant == Some(rs[r - 1].recipient)
    && c.nextPayBy == Some(rs[r - 1].cutoff)
    && rs[r - 1].cutoff == rs[0].cutoff + (r - 1) * f
    && c.finalPayBy == Some(rs[|rs| - 1].cutoff) && c.nextPayBy.value <= c.finalPayBy.value
    && c.order == Some(RotatedRight(Reverse(Recipients(rs)), r)) && c.order.value[0] == c.claimant.value
    && c.contributors <= c.Members() && c.contributionCount == |c.contributors|
    && (c.contributors == {} || |c.contributors| < |rs| - 1)
    && ClearPrefix(c.contributors, |rs| - 1) == {}
  }

  lemma RunningForetold(id: RoscaId, c: Circle, l: Ledger, rs: seq<RoundInfo>, r: nat)
    requires Running(id, c, l, rs, r) && 1 <= r <= |rs|
    ensures HasTerms(c) && Foretold(c, Terms(c).frequency, rs, r)
  {
    hide SavingsOk, DefaultsOk, BooksOk, Tally, Published, Solvent, ClearPrefix;
    ClaimantIsScheduled(c, Terms(c).frequency, rs, r);
    RunningDue(id, c, l, rs, r);
    Lattice(rs, c.Members(), Terms(c).frequency, 0, r - 1);
    OrderIsRotation(c.order.value, rs, r);
    ClearIsEnough(c, |rs|);
  }

  lemma ScheduleIsProphecy(w0: World, ms: seq<Move>, w: World, id: RoscaId)
    requires Reached(w0, ms, w) && w.At(id).active.Some?
    ensures var c := w.At(id);
            HasTerms(c) && Foretold(c, Terms(c).frequency, Published(c.log), Tally(c.log, RoundStarts))
    ensures ScheduleFor(Published(w.At(id).log), w.At(id).Members(), Terms(w.At(id)).frequency)
  {
    hide Well, Mirrored, Running, Finished, PendingOk, Foretold;
    ReachedSound(w0, ms, w);
    var c := w.At(id);
    WellCases(w.cfg, id, c, w.ledger);
    RunningForetold(id, c, w.ledger, Published(c.log), Tally(c.log, RoundStarts));
    RunningSchedule(id, c, w.ledger, Published(c.log), Tally(c.log, RoundStarts));
  }

  /** In every reachable pending circle slots and members are in bijection within the invited, and whoever is
      invited and has not joined can join in time without naming a slot. */
  lemma PendingIsBijection(w0: World, ms: seq<Move>, w: World, id: RoscaId, signer: Account)
    requires Reached(w0, ms, w) && w.At(id).pending.Some?
    ensures var c := w.At(id);
            && c.pendingOrder.Some? && Seated(c.pendingOrder.value, c.participants)
            && c.Members() <= c.invited && |c.invited| == |c.pendingOrder.value|
            && c.participantCount == Some(|Filled(c.pendingOrder.value)|)
            && (JoinRosca(c, w.now, signer, None).Ok? <==>
                  signer in c.invited && signer !in c.participants && w.now < c.pending.value.startBy)
  {
    hide Well, Mirrored, Running, Finished, JoinRosca, Seated, Quiet, SavingsOk, DefaultsOk, Solvent, Filled;
    ReachedSound(w0, ms, w);
    var c := w.At(id);
    WellCases(w.cfg, id, c, w.ledger);
    SeatedFilled(c.pendingOrder.value, c.participants);
    JoinAnywhere(w.cfg, id, c, w.ledger, w.now, signer);
  }

  /** What a start at time `now` publishes: every member is recipient once, in slot order unless the circle is shuffled, and
      then as drawn with the given byte from the last slot to the first; the first cutoff is one frequency away and the
      final deadline n frequencies. */
  ghost predicate PublishedAt(c: Circle, c': Circle, now: u64, byte: nat) {
    && HasTerms(c) && c.pendingOrder.Some?
    && var rs, d := Published(c'.log), Terms(c);
       && (!d.randomOrder ==> Recipients(rs) == Filled(c.pendingOrder.value))
       && (d.randomOrder ==> DrawnFrom(Reverse(Filled(c.pendingOrder.value)), Always(byte), Reverse(Recipients(rs))))
       && multiset(Recipients(rs)) == multiset(Filled(c.pendingOrder.value))
       && ScheduleFor(rs, c.Members(), d.frequency)
       && rs[0].cutoff == now + d.frequency && c'.finalPayBy == Some(now + |rs| * d.frequency)
  }

  /** A reachable pending circle can be started by a member exactly when `MayStart` holds, whatever the shuffle draws. */
  lemma StartWorksIff(w0: World, ms: seq<Move>, w: World, id: RoscaId, signer: Account, byte: nat)
    requires Reached(w0, ms, w) && w.At(id).pending.Some?
    ensures HasTerms(w.At(id))
    ensures var r := StartRosca(w.cfg, w.At(id), w.now, signer, byte);
            && (r.Ok? <==> MayStart(w.At(id), w.now, signer))
            && (r.Ok? ==> PublishedAt(w.At(id), r.value, w.now, byte))
  {
    hide Well, Mirrored, Running, Finished, StartRosca, PendingOk, MayStart, PublishedAt, SavingsOk, Solvent;
    ReachedSound(w0, ms, w);
    WellCases(w.cfg, id, w.At(id), w.ledger);
    WellTerms(w.cfg, id, w.At(id), w.ledger);
    StartIs(w.cfg, id, w.At(id), w.ledger, w.now, signer, byte);
    if MayStart(w.At(id), w.now, signer) {
      StartPublishes(w.cfg, id, w.At(id), w.ledger, w.now, signer, byte);
    }
  }

  lemma StartPublishes(cfg: Config, id: RoscaId, c: Circle, l: Ledger, now: u64, signer: Account, byte: nat)
    requires PendingOk(cfg, id, c, l) && StartRosca(cfg, c, now, signer, byte).Ok?
    ensures PublishedAt(c, StartRosca(cfg, c, now, signer, byte).value, now, byte)
  {
    hide Running, StartRosca, Seated, Quiet, SavingsOk, DefaultsOk, Solvent, Filled, Published, ScheduleFor, Recipients, Reverse, DrawnFrom;
    StartShuffles(cfg, id, c, l, now, signer, byte);
    StartRuns(cfg, id, c, l, now, signer, byte);
    PayoutOrder(cfg, id, c, l, now, signer, byte);
    var c' := StartRosca(cfg, c, now, signer, byte).value;
    RunningSchedule(id, c', l, Published(c'.log), 1);
    LaunchKeeps(cfg, id, c, l, now, signer, byte);
    LaunchTimes(cfg, id, c, l, now, signer, byte);
  }

  lemma StartShuffles(cfg: Config, id: RoscaId, c: Circle, l: Ledger, now: u64, signer: Account, byte: nat)
    requires PendingOk(cfg, id, c, l) && StartRosca(cfg, c, now, signer, byte).Ok?
    ensures HasTerms(c) && c.pendingOrder.Some?
    ensures var rs := Published(StartRosca(cfg, c, now, signer, byte).value.log);
            Terms(c).randomOrder ==> DrawnFrom(Reverse(Filled(c.pendingOrder.value)), Always(byte), Reverse(Recipients(rs)))
  {
    hide Seated, Quiet, SavingsOk, DefaultsOk, Solvent, Filled, Published, GenerateRounds, StartRosca, MayStart, ScheduleFor, Reverse,
      Recipients, Shuffle, DrawnFrom, Always;
    StartIs(cfg, id, c, l, now, signer, byte);
    var order := OrderOf(c, byte);
    OrderOfLists(cfg, c, byte);
    GeneratedSchedule(cfg, order, now, Terms(c).frequency);
    var c' := StartRosca(cfg, c, now, signer, byte).value;
    Push(c.log, c'.log[|c.log|]);
    assert c'.log == c.log + [c'.log[|c.log|]];
    FilledReverse(c.pendingOrder.value);
    ShuffleDraws(Filled(Reverse(c.pendingOrder.value)), Always(byte));
  }

  lemma LaunchTimes(cfg: Config, id: RoscaId, c: Circle, l: Ledger, now: u64, signer: Account, byte: nat)
    requires PendingOk(cfg, id, c, l) && StartRosca(cfg, c, now, signer, byte).Ok?
    ensures var c' := StartRosca(cfg, c, now, signer, byte).value;
            var rs := Published(c'.log);
            && HasTerms(c) && |rs| > 0 && rs[0].cutoff == now + Terms(c).frequency
            && c'.finalPayBy == Some(now + |rs| * Terms(c).frequency)
  {
    hide Seated, Quiet, SavingsOk, DefaultsOk, Solvent, Filled, Published, GenerateRounds, OrderOf, StartRosca, MayStart, ScheduleFor, Reverse,
      Recipients;
    StartIs(cfg, id, c, l, now, signer, byte);
    var order := OrderOf(c, byte);
    OrderOfLists(cfg, c, byte);
    GeneratedSchedule(cfg, order, now, Terms(c).frequency);
    var c' := StartRosca(cfg, c, now, signer, byte).value;
    Push(c.log, c'.log[|c.log|]);
    assert c'.log == c.log + [c'.log[|c.log|]];
  }

  lemma LaunchKeeps(cfg: Config, id: RoscaId, c: Circle, l: Ledger, now: u64, signer: Account, byte: nat)
    requires PendingOk(cfg, id, c, l) && StartRosca(cfg, c, now, signer, byte).Ok?
    ensures var c' := StartRosca(cfg, c, now, signer, byte).value;
            HasTerms(c) && HasTerms(c') && Terms(c') == Terms(c) && c'.Members() == c.Members()
  {
    hide Seated, Quiet, SavingsOk, DefaultsOk, Solvent, Filled, Published, GenerateRounds, OrderOf, StartRosca, MayStart;
    StartIs(cfg, id, c, l, now, signer, byte);
  }

  /** In every reachable active circle a contribution is accepted exactly when the signer is a member, is not the
      claimant and has not contributed in the stored round, and, unless all deadlines have passed, can pay after the
      missed rounds are settled. No transfer from the pot and no addition on time ever makes it fail. */
  lemma ContributeWorksIff(w0: World, ms: seq<Move>, w: World, id: RoscaId, signer: Account)
    requires Reached(w0, ms, w) && w.At(id).active.Some?
    ensures var c := w.At(id);
            var rs, r := Published(c.log), Tally(c.log, RoundStarts);
            && HasTerms(c) && 1 <= r <= |rs|
            && (ContributeToRosca(id, View(c, w.ledger), w.now, signer).Ok? <==>
                  && MayContribute(c, signer)
                  && (Window(rs, r, w.now) <= |rs| ==>
                        AfterMissed(id, View(c, w.ledger), w.now, rs, r).l.Balance(Terms(c).asset, signer) >= Terms(c).amount))
  {
    hide Well, Mirrored, Running, PendingOk, Finished, ContributeToRosca, AfterMissed, MayContribute, Tally, Published, Ledger.Balance;
    ReachedSound(w0, ms, w);
    var c := w.At(id);
    WellCases(w.cfg, id, c, w.ledger);
    WellTerms(w.cfg, id, c, w.ledger);
    ContributeRuns(id, View(c, w.ledger), w.now, signer, Published(c.log), Tally(c.log, RoundStarts));
  }

  /** Once the final deadline has passed anybody can end an active circle, whatever happened before, and the catch-up
      of a contribution would have led to the same storage and balances. */
  lemma ManualEndWorks(w0: World, ms: seq<Move>, w: World, id: RoscaId, signer: Account)
    requires Reached(w0, ms, w) && w.At(id).active.Some? && signer.Member?
    requires w.At(id).finalPayBy.Some? && w.now > w.At(id).finalPayBy.value
    ensures var w' := Step(w, Do(signer, ManualEnd(id)));
            w'.At(id).completed && CatchUp(id, View(w.At(id), w.ledger), w.now) == Ok(CaughtUp(View(w'.At(id), w'.ledger), true))
  {
    hide Well, Mirrored, Running, PendingOk, ManuallyEnd, CloseRounds, CatchUp;
    ReachedSound(w0, ms, w);
    var c := w.At(id);
    WellCases(w.cfg, id, c, w.ledger);
    ManualEndSucceeds(id, View(c, w.ledger), w.now, Published(c.log), Tally(c.log, RoundStarts));
    EndsAgree(id, View(c, w.ledger), w.now, Published(c.log), Tally(c.log, RoundStarts));
  }

  /** At the completion of a circle to which nobody contributed as its recipient of the moment, every member's
      payments, covered rounds and defaults make n - 1, one for each round that paid somebody else. */
  lemma RunAccounting(w0: World, ms: seq<Move>, w: World, id: RoscaId, p: Account)
    requires Reached(w0, ms, w) && NeverSelfPays(w0, ms, id)
    requires w.At(id).completed && p in w.At(id).Members()
    ensures var c := w.At(id);
            && HasTerms(c) && ScheduleFor(Published(c.log), c.Members(), Terms(c).frequency)
            && Tally(c.log, PaidBy(p)) + Tally(c.log, CoveredFor(p)) + c.Defaults(p) == |Published(c.log)| - 1
  {
    hide Well, Running, PendingOk, NobodyPaidSelf, Tally, Published, Orderly, EntityAgrees;
    ReachedSound(w0, ms, w);
    NobodyYet();
    GenesisSound(w0);
    RunPaid(w0, ms, id);
    var c := w.At(id);
    WellCases(w.cfg, id, c, w.ledger);
    assert Mirrored(c);
    FullAccounting(id, c, w.ledger, Published(c.log), p);
    FinishedSchedule(id, c, w.ledger, Published(c.log));
  }

  /** Without any assumption on who contributes: what each member did in the rounds of others, plus the rounds in
      which nothing was recorded for them, make n - 1, with one more for a payment to oneself. */
  lemma RunAccountsAddUp(w0: World, ms: seq<Move>, w: World, id: RoscaId, p: Account)
    requires Reached(w0, ms, w)
    requires w.At(id).completed && p in w.At(id).Members()
    ensures var c := w.At(id);
            Tally(c.log, PaidBy(p)) + Tally(c.log, CoveredFor(p)) + c.Defaults(p)
            + Escapes(c.log, c.Members(), Published(c.log), p, |Published(c.log)|)
            == |Published(c.log)| - 1 + Tally(c.log, Paid(p, p))
  {
    hide Well, Running, PendingOk, Finished, Tally, Published, Orderly, EntityAgrees, Escapes;
    ReachedSound(w0, ms, w);
    var c := w.At(id);
    WellCases(w.cfg, id, c, w.ledger);
    assert Mirrored(c);
    AccountsAddUp(id, c, w.ledger, Published(c.log), p);
  }

  /** A circle's log holds no payment to oneself if and only if no accepted contribution to it was made by the
      member whom its schedule paid at that time. */
  lemma SelfPaymentsOverRun(w0: World, ms: seq<Move>, w: World, id: RoscaId)
    requires Reached(w0, ms, w)
    ensures (forall p :: Tally(w.At(id).log, Paid(p, p)) == 0) <==> NeverSelfPays(w0, ms, id)
  {
    hide Well, Tally, Step, SelfPaying, Mirrored;
    GenesisSound(w0);
    NobodyYet();
    ReachedSound(w0, ms, w);
    RunPaid(w0, ms, id);
  }

  lemma FinishedSchedule(id: RoscaId, c: Circle, l: Ledger, rs: seq<RoundInfo>)
    requires Finished(id, c, l, rs)
    ensures HasTerms(c) && ScheduleFor(rs, c.Members(), Terms(c).frequency)
  {
  }

  // ---------- claiming ----------

  lemma StepDeposits(w: World, m: Move, id: RoscaId)
    requires Sound(w) && Fresh(w, m) && w.At(id).completed
    ensures Step(w, m).At(id).completed && Step(w, m).At(id).deposits.Keys <= w.At(id).deposits.Keys
  {
    hide Well, CreateRosca, Transfer, Running, PendingOk, Finished, CallOn, Published, Tally;
    StepOnward(w, m, id);
    var c, w' := w.At(id), Step(w, m);
    if m.Do? && m.call.id == id && w' != w {
      WellCases(w.cfg, id, c, w.ledger);
      FinishedClaims(w.cfg, w.now, View(c, w.ledger), m.signer, m.call, Published(c.log));
    }
  }

  lemma FinishedClaims(cfg: Config, now: u64, v: View, signer: Account, call: Call, rs: seq<RoundInfo>)
    requires Finished(call.id, v.c, v.l, rs) && signer.Member? && CallOn(cfg, now, v, signer, call).Ok?
    ensures CallOn(cfg, now, v, signer, call).value.c.deposits.Keys <= v.c.deposits.Keys
  {
    hide GoodStep, ClaimDeposit, Transfer, Moved;
    FinishedStep(cfg, now, v, signer, call, rs);
    ClaimIs(call.id, v, now, signer, call.asset);
  }

  lemma {:induction false} RunDeposits(w: World, ms: seq<Move>, id: RoscaId)
    requires Sound(w) && FreshRun(w, ms) && w.At(id).completed
    ensures Run(w, ms).At(id).completed && Run(w, ms).At(id).deposits.Keys <= w.At(id).deposits.Keys
  {
    hide Well, Step;
    if ms != [] {
      RunDeposits(w, ms[..|ms| - 1], id);
      RunSound(w, ms[..|ms| - 1]);
      StepDeposits(Run(w, ms[..|ms| - 1]), ms[|ms| - 1], id);
    }
  }

  /** Once a circle is completed and its final deadline has passed, each positive deposit is paid out in the
      circle's asset on the first claim, and after it no claim by the same member ever succeeds again. */
  lemma ClaimedExactlyOnce(w: World, id: RoscaId, p: Account, a: Asset, ms: seq<Move>, again: Asset)
    requires Sound(w) && w.At(id).completed && p.Member? && HasTerms(w.At(id)) && a == Terms(w.At(id)).asset
    requires w.At(id).finalPayBy.Some? && w.now > w.At(id).finalPayBy.value && w.At(id).Deposit(p) > 0
    requires FreshRun(Step(w, Do(p, Claim(id, a))), ms)
    ensures var held, w1 := w.At(id).Deposit(p), Step(w, Do(p, Claim(id, a)));
            && w1.ledger.Balance(a, p) == w.ledger.Balance(a, p) + held
            && w1.ledger.Balance(a, Pot(id)) == w.ledger.Balance(a, Pot(id)) - held
            && Run(w1, ms).At(id).completed
            && ClaimDeposit(id, View(Run(w1, ms).At(id), Run(w1, ms).ledger), Run(w1, ms).now, p, again).Err?
  {
    hide Well, Running, PendingOk, ClaimDeposit, Published, Tally, ScheduleFor, SavingsOk, DefaultsOk, BooksOk, Solvent;
    var c := w.At(id);
    WellCases(w.cfg, id, c, w.ledger);
    var v := View(c, w.ledger);
    ClaimSucceeds(id, v, w.now, p, Published(c.log));
    ClaimIs(id, v, w.now, p, a);
    DoSound(w, p, Claim(id, a));
    var w1 := Step(w, Do(p, Claim(id, a)));
    assert w1.At(id) == ClaimDeposit(id, v, w.now, p, a).value.c;
    RunDeposits(w1, ms, id);
    NoSuchDeposit(id, View(Run(w1, ms).At(id), Run(w1, ms).ledger), Run(w1, ms).now, p, again);
  }

  lemma NoSuchDeposit(id: RoscaId, v: View, now: u64, p: Account, asset: Asset)
    requires p !in v.c.deposits
    ensures ClaimDeposit(id, v, now, p, asset).Err?
  {
  }
}

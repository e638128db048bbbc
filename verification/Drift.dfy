/** Where the indexer's deposits and its current cutoff agree with the pallet, and where they drift away. */
module Drift {
  import opened Prelude
  import opened Storage
  import opened Rules
  import opened Journal
  import opened Circles
  import opened Chronicle
  import opened Projection
  import opened Mirror
  import opened Runs
  import opened Agreement
  import opened Theorems
  import opened Payouts

  // ---------- deposits ----------

  /** The deposit of p that the indexer shows. */
  ghost function Shown(log: seq<Event>, p: Account): nat {
    Get(Project(log).deposits, p, 0)
  }

  /** What the indexer shows beyond what is held: at least everything ever taken, and nothing if nothing was taken. */
  lemma {:induction false} DepositDrift(log: seq<Event>, p: Account)
    requires Orderly(log)
    ensures Shown(log, p) >= Held(log, p) + Tally(log, Taken(p))
    ensures Tally(log, Taken(p)) == 0 ==> Shown(log, p) == Held(log, p)
  {
    if log != [] {
      var init, e := log[..|log| - 1], log[|log| - 1];
      DepositDrift(init, p);
      assert log == init + [e];
      JoinedIsEligible(init);
      DriftStep(init, e, p);
    }
  }

  lemma ShownPush(log: seq<Event>, e: Event, p: Account)
    ensures Shown(log + [e], p) ==
              if e.SecurityDepositContribution? && e.depositor == p && p in Project(log).joined then Shown(log, p) + e.added
              else if e.SecurityDepositClaimed? && e.claimer == p && Shown(log, p) == e.claimed then 0
              else Shown(log, p)
  {
    hide Project, FindRound;
    ProjectPush(log, e);
  }

  lemma DriftStep(log: seq<Event>, e: Event, p: Account)
    requires MayFollow(log, e) && Project(log).joined.Keys == Eligible(log)
    requires Shown(log, p) >= Held(log, p) + Tally(log, Taken(p))
    requires Tally(log, Taken(p)) == 0 ==> Shown(log, p) == Held(log, p)
    ensures Shown(log + [e], p) >= Held(log + [e], p) + Tally(log + [e], Taken(p))
    ensures Tally(log + [e], Taken(p)) == 0 ==> Shown(log + [e], p) == Held(log + [e], p)
  {
    hide Tally, Project, Published, Eligible, Shown;
    Push(log, e);
    ShownPush(log, e, p);
  }

  /** In every reachable state the indexer shows at least the deposit that the pallet holds, and exactly it if and only if
      nothing was ever taken from that deposit. A claim of a drifted deposit does not mend it. */
  lemma ShownDepositIff(w0: World, ms: seq<Move>, w: World, id: RoscaId, p: Account)
    requires Reached(w0, ms, w) && w.Has(id)
    ensures var c := w.At(id);
            && Shown(c.log, p) >= c.Deposit(p)
            && (Shown(c.log, p) == c.Deposit(p) <==> Tally(c.log, Taken(p)) == 0)
  {
    hide Well, Tally, Shown, Orderly, EntityAgrees, Solvent;
    ReachedSound(w0, ms, w);
    WellTerms(w.cfg, id, w.At(id), w.ledger);
    assert Mirrored(w.At(id));
    DepositDrift(w.At(id).log, p);
  }

  /** The total is the sum of the deposits shown. */
  lemma {:induction false} TotalIsSum(log: seq<Event>)
    requires Orderly(log) && log != []
    ensures Project(log).rosca.Some? && Project(log).rosca.value.totalDeposits == Sum(Project(log).deposits)
  {
    var init, e := log[..|log| - 1], log[|log| - 1];
    assert log == init + [e];
    ProjectPush(init, e);
    if init == [] {
      hide Sum;
      NothingShown();
    } else {
      TotalIsSum(init);
      TotalStep(init, e);
    }
  }

  lemma NothingShown()
    ensures Project([]) == NO_INDEX && Sum(NO_INDEX.deposits) == 0
  {
  }

  lemma TotalStep(log: seq<Event>, e: Event)
    requires !e.RoscaCreated? && Project(log).rosca.Some? && Project(log).rosca.value.totalDeposits == Sum(Project(log).deposits)
    ensures Project(log + [e]).rosca.Some? && Project(log + [e]).rosca.value.totalDeposits == Sum(Project(log + [e]).deposits)
  {
    hide Project, Sum, FindRound;
    ProjectPush(log, e);
    var m := Project(log).deposits;
    if e.SecurityDepositContribution? {
      SumUpdate(m, e.depositor, Get(m, e.depositor, 0) + e.added);
    } else if e.SecurityDepositClaimed? && e.claimer in m {
      SumRemove(m, e.claimer);
    }
  }

  lemma SumWithout(m: map<Account, nat>, p: Account)
    ensures Sum(m) == Get(m, p, 0) + Sum(m - {p})
    ensures forall q :: Get(m - {p}, q, 0) == if q == p then 0 else Get(m, q, 0)
  {
    if p in m {
      SumRemove(m, p);
    } else {
      assert m - {p} == m;
    }
  }

  /** Sums of maps that are ordered entry by entry are ordered. */
  lemma {:induction false} SumOrder(m: map<Account, nat>, m': map<Account, nat>)
    requires forall p :: Get(m, p, 0) <= Get(m', p, 0)
    ensures Sum(m) <= Sum(m')
    decreases |m'|
  {
    if m' == map[] {
      forall p | p in m ensures m[p] == 0 {
        assert Get(m, p, 0) <= Get(m', p, 0);
      }
      AllZero(m);
    } else {
      var p :| p in m';
      assert (m' - {p}).Keys == m'.Keys - {p};
      hide Sum;
      assert Get(m, p, 0) <= Get(m', p, 0);
      SumWithout(m, p);
      SumWithout(m', p);
      SumOrder(m - {p}, m' - {p});
    }
  }

  lemma SumStrict(m: map<Account, nat>, m': map<Account, nat>, p: Account)
    requires (forall q :: Get(m, q, 0) <= Get(m', q, 0)) && Get(m, p, 0) < Get(m', p, 0)
    ensures Sum(m) < Sum(m')
  {
    SumWithout(m, p);
    SumWithout(m', p);
    SumOrder(m - {p}, m' - {p});
  }

  lemma {:induction false} AllZero(m: map<Account, nat>)
    requires forall p :: p in m ==> m[p] == 0
    ensures Sum(m) == 0
    decreases |m|
  {
    if m != map[] {
      var p :| p in m;
      SumRemove(m, p);
      assert (m - {p}).Keys == m.Keys - {p};
      AllZero(m - {p});
    }
  }

  /** The indexer's total of a circle is the sum of the pallet's deposits if and only if nothing was ever taken from any. */
  lemma ShownTotalIff(w0: World, ms: seq<Move>, w: World, id: RoscaId)
    requires Reached(w0, ms, w) && w.Has(id)
    ensures var c := w.At(id);
            && Project(c.log).rosca.Some?
            && (Project(c.log).rosca.value.totalDeposits == Sum(c.deposits) <==> forall p :: Tally(c.log, Taken(p)) == 0)
  {
    hide Well, Tally, Orderly, EntityAgrees, Sum, Project;
    ReachedSound(w0, ms, w);
    var c := w.At(id);
    assert Mirrored(c);
    TotalIsSum(c.log);
    forall p ensures Get(c.deposits, p, 0) <= Get(Project(c.log).deposits, p, 0)
                  && (Get(c.deposits, p, 0) == Get(Project(c.log).deposits, p, 0) <==> Tally(c.log, Taken(p)) == 0) {
      ShownDepositIff(w0, ms, w, id, p);
    }
    var m: map<Account, nat>, m' := c.deposits, Project(c.log).deposits;
    SumOrder(m, m');
    if p :| Tally(c.log, Taken(p)) != 0 {
      SumStrict(m, m', p);
    } else {
      SumOrder(m', m);
    }
  }

  // ---------- the current cutoff ----------

  /** The cutoff announced last. */
  ghost function LastCutoff(log: seq<Event>): Option<u64> {
    if log == [] then None
    else
      var e := log[|log| - 1];
      if e.RoscaStarted? then Some(e.firstCutoff)
      else if e.NewRoundStarted? then Some(e.newCutoff)
      else LastCutoff(log[..|log| - 1])
  }

  lemma CutoffPush(log: seq<Event>, e: Event)
    ensures LastCutoff(log + [e]) ==
              if e.RoscaStarted? then Some(e.firstCutoff) else if e.NewRoundStarted? then Some(e.newCutoff) else LastCutoff(log)
  {
    assert (log + [e])[..|log|] == log;
  }

  /** Every round after the first was announced one frequency after the one before. */
  ghost predicate Paced(log: seq<Event>, f: nat) {
    log != [] ==>
      && Paced(log[..|log| - 1], f)
      && var e, last := log[|log| - 1], LastCutoff(log[..|log| - 1]);
         e.NewRoundStarted? ==> last.Some? && e.newCutoff == last.value + f
  }

  lemma PacedPush(log: seq<Event>, e: Event, f: nat)
    requires Paced(log, f)
    requires e.NewRoundStarted? ==> LastCutoff(log).Some? && e.newCutoff == LastCutoff(log).value + f
    ensures Paced(log + [e], f)
  {
    assert (log + [e])[..|log|] == log;
  }

  /** The stored deadline is the one announced last, and announcements are a frequency apart. */
  ghost predicate Told(c: Circle, f: nat) {
    c.nextPayBy == LastCutoff(c.log) && Paced(c.log, f)
  }

  /** An event that announces no round. */
  lemma QuietlyTold(log: seq<Event>, e: Event, f: nat)
    requires Paced(log, f) && !e.RoscaStarted? && !e.NewRoundStarted?
    ensures Paced(log + [e], f) && LastCutoff(log + [e]) == LastCutoff(log)
  {
    hide LastCutoff, Paced;
    CutoffPush(log, e);
    PacedPush(log, e, f);
  }

  lemma SettleOneTold(id: RoscaId, d: Details, r: Account, v: View, p: Account, f: nat)
    requires Paced(v.c.log, f) && SettleOne(id, d, r, v, p).Ok?
    ensures var log := SettleOne(id, d, r, v, p).value.c.log; Paced(log, f) && LastCutoff(log) == LastCutoff(v.c.log)
  {
    hide LastCutoff, Paced, Transfer;
    var e, held := ParticipantDefaulted(r, p), v.c.Deposit(p);
    QuietlyTold(v.c.log, DepositDeducted(p, r, d.amount, true), f);
    QuietlyTold(v.c.log, e, f);
    QuietlyTold(v.c.log, DepositDeducted(p, r, held, false), f);
    QuietlyTold(v.c.log + [DepositDeducted(p, r, held, false)], e, f);
  }

  lemma {:induction false} SettleTold(id: RoscaId, d: Details, r: Account, v: View, ps: seq<Account>, f: nat)
    requires Paced(v.c.log, f) && Settle(id, d, r, v, ps).Ok?
    ensures var log := Settle(id, d, r, v, ps).value.c.log; Paced(log, f) && LastCutoff(log) == LastCutoff(v.c.log)
  {
    hide LastCutoff, Paced, SettleOne;
    if ps != [] {
      SettleTold(id, d, r, v, ps[..|ps| - 1], f);
      SettleOneTold(id, d, r, Settle(id, d, r, v, ps[..|ps| - 1]).value, ps[|ps| - 1], f);
    }
  }

  lemma CloseRoundTold(id: RoscaId, v: View)
    requires CloseRound(id, v).Ok? && v.c.active.Some? && Told(v.c, v.c.active.value.frequency)
    ensures CloseRound(id, v).value.c.active == v.c.active && Told(CloseRound(id, v).value.c, v.c.active.value.frequency)
  {
    hide LastCutoff, Paced, Settle, ClearPrefix;
    var d := v.c.active.value;
    var v1, u := ProcessDefaulters(id, v).value, CloseRound(id, v).value;
    SettleTold(id, d, v.c.claimant.value, v, v.c.order.value, d.frequency);
    CutoffPush(v1.c.log, u.c.log[|v1.c.log|]);
    PacedPush(v1.c.log, u.c.log[|v1.c.log|], d.frequency);
    assert u.c.log == v1.c.log + [u.c.log[|v1.c.log|]];
  }

  lemma CompleteTold(c: Circle, f: nat)
    requires Told(c, f)
    ensures Told(Complete(c), f)
  {
    hide LastCutoff, Paced;
    QuietlyTold(c.log, RoscaComplete, f);
  }

  lemma {:induction false} CatchUpTold(id: RoscaId, v: View, now: u64)
    requires v.c.active.Some? && Told(v.c, v.c.active.value.frequency) && CatchUp(id, v, now).Ok?
    ensures Told(CatchUp(id, v, now).value.v.c, v.c.active.value.frequency)
    decreases if v.c.nextPayBy.Some? && v.c.nextPayBy.value <= now then now - v.c.nextPayBy.value + 1 else 0
  {
    hide Told, ProcessDefaulters, AdvanceRound, CloseRound, Complete;
    if v.c.nextPayBy.value <= now {
      CloseRoundTold(id, v);
      var v1 := CloseRound(id, v).value;
      if CheckAndComplete(v1.c).value.done {
        CompleteTold(v1.c, v.c.active.value.frequency);
      } else {
        CatchUpTold(id, v1, now);
      }
    }
  }

  lemma {:induction false} EndLoopTold(id: RoscaId, v: View, final: u64)
    requires v.c.active.Some? && Told(v.c, v.c.active.value.frequency) && EndLoop(id, v, final).Ok?
    ensures Told(EndLoop(id, v, final).value.c, v.c.active.value.frequency)
    decreases if v.c.nextPayBy.Some? && v.c.nextPayBy.value <= final then final - v.c.nextPayBy.value + 1 else 0
  {
    hide Told, ProcessDefaulters, AdvanceRound, CloseRound;
    if v.c.nextPayBy.Some? && v.c.nextPayBy.value <= final {
      CloseRoundTold(id, v);
      EndLoopTold(id, CloseRound(id, v).value, final);
    }
  }

  lemma PayTold(v: View, d: Details, final: u64, signer: Account)
    requires Told(v.c, d.frequency) && Pay(v, d, final, signer).Ok?
    ensures Told(Pay(v, d, final, signer).value.c, d.frequency)
  {
    hide LastCutoff, Paced, Transfer, ClearPrefix;
    var u, e := Pay(v, d, final, signer).value, ContributionMade(signer, v.c.claimant.value, d.amount);
    QuietlyTold(v.c.log, e, d.frequency);
    var log := v.c.log + [e];
    if u.c.log != log {
      CutoffPush(log, u.c.log[|log|]);
      PacedPush(log, u.c.log[|log|], d.frequency);
      assert u.c.log == log + [u.c.log[|log|]];
    }
  }

  lemma ContributeTold(id: RoscaId, v: View, now: u64, signer: Account)
    requires v.c.active.Some? && Told(v.c, v.c.active.value.frequency) && ContributeToRosca(id, v, now, signer).Ok?
    ensures Told(ContributeToRosca(id, v, now, signer).value.c, v.c.active.value.frequency)
  {
    hide Told, CatchUp, Pay;
    CatchUpTold(id, v, now);
    var k := CatchUp(id, v, now).value;
    if !k.done {
      PayTold(k.v, v.c.active.value, v.c.finalPayBy.value, signer);
    }
  }

  lemma ManualEndTold(id: RoscaId, v: View, now: u64)
    requires v.c.active.Some? && Told(v.c, v.c.active.value.frequency) && ManuallyEnd(id, v, now).Ok?
    ensures Told(ManuallyEnd(id, v, now).value.c, v.c.active.value.frequency)
  {
    hide Told, EndLoop, Complete;
    EndLoopTold(id, v, v.c.finalPayBy.value);
    CompleteTold(EndLoop(id, v, v.c.finalPayBy.value).value.c, v.c.active.value.frequency);
  }

  lemma LeaveTold(id: RoscaId, v: View, signer: Account, f: nat)
    requires Told(v.c, f) && LeaveRosca(id, v, signer).Ok?
    ensures Told(LeaveRosca(id, v, signer).value.c, f)
  {
    hide LastCutoff, Paced, Transfer;
    var e := SecurityDepositClaimed(signer, v.c.Deposit(signer));
    QuietlyTold(v.c.log, e, f);
    QuietlyTold(v.c.log, LeftRosca(signer), f);
    QuietlyTold(v.c.log + [e], LeftRosca(signer), f);
  }

  lemma CallTold(cfg: Config, now: u64, v: View, signer: Account, call: Call, f: nat)
    requires Told(v.c, f) && CallOn(cfg, now, v, signer, call).Ok? && (v.c.active.Some? ==> v.c.active.value.frequency == f)
    ensures Told(CallOn(cfg, now, v, signer, call).value.c, f)
  {
    hide LastCutoff, Paced, ContributeToRosca, ManuallyEnd, LeaveRosca, Transfer, GenerateRounds, AddTimes, Filled, Shuffle, FirstFree, Reverse;
    var log := v.c.log;
    match call {
      case Join(_, _) => QuietlyTold(log, JoinedRosca(signer), f);
      case Leave(id) => LeaveTold(id, v, signer, f);
      case Start(_, byte) =>
        var c' := StartRosca(cfg, v.c, now, signer, byte).value;
        CutoffPush(log, c'.log[|log|]);
        PacedPush(log, c'.log[|log|], f);
        assert c'.log == log + [c'.log[|log|]];
      case Contribute(id) =>
        CallNeeds(cfg, now, v, signer, call);
        ContributeTold(id, v, now, signer);
      case ManualEnd(id) =>
        CallNeeds(cfg, now, v, signer, call);
        ManualEndTold(id, v, now);
      case Claim(_, _) => QuietlyTold(log, SecurityDepositClaimed(signer, v.c.deposits[signer]), f);
      case Add(_, amount) => QuietlyTold(log, SecurityDepositContribution(signer, amount), f);
    }
  }

  /** Where a circle exists, it is told at its own frequency. */
  ghost predicate ToldAt(w: World, id: RoscaId) {
    w.Has(id) ==> HasTerms(w.At(id)) && Told(w.At(id), Terms(w.At(id)).frequency)
  }

  lemma StepTold(w: World, m: Move, id: RoscaId)
    requires Sound(w) && Fresh(w, m) && ToldAt(w, id)
    ensures ToldAt(Step(w, m), id)
  {
    hide Well, CallOn, CreateRosca, Transfer, Told, GoodStep;
    var w' := Step(w, m);
    if w' == w {
    } else if m.Do? && m.call.id == id {
      DoSound(w, m.signer, m.call);
      TermsAfter(w, m);
      ActiveTerms(w.cfg, id, w.At(id), w.ledger);
      CallTold(w.cfg, w.now, View(w.At(id), w.ledger), m.signer, m.call, Terms(w.At(id)).frequency);
    } else if m.Create? && id == w.nextId {
      CreatedTold(w, m);
    } else {
      assert w'.At(id) == w.At(id);
    }
  }

  lemma CreatedTold(w: World, m: Move)
    requires Fresh(w, m) && m.Create? && Step(w, m) != w
    ensures var c := Step(w, m).At(w.nextId); HasTerms(c) && Told(c, Terms(c).frequency)
  {
    hide SortDedup, LastCutoff, Paced;
    var c := Step(w, m).At(w.nextId);
    NoCutoff(c.log[0].details.frequency);
    QuietlyTold([], c.log[0], c.log[0].details.frequency);
    assert c.log == [] + [c.log[0]];
  }

  lemma NoCutoff(f: nat)
    ensures LastCutoff([]).None? && Paced([], f)
  {
  }

  lemma {:induction false} RunTold(w: World, ms: seq<Move>, id: RoscaId)
    requires Sound(w) && FreshRun(w, ms) && ToldAt(w, id)
    ensures ToldAt(Run(w, ms), id)
  {
    hide Well, Step, ToldAt, Fresh;
    if ms != [] {
      RunTold(w, ms[..|ms| - 1], id);
      RunSound(w, ms[..|ms| - 1]);
      StepTold(Run(w, ms[..|ms| - 1]), ms[|ms| - 1], id);
    }
  }

  /** The sum of the first k cutoffs of a schedule that begins at `first`. */
  ghost function CutoffSum(first: nat, f: nat, k: nat): nat {
    if k == 0 then 0 else CutoffSum(first, f, k - 1) + first + (k - 1) * f
  }

  /** Before the start the indexer shows no cutoff; in round k it shows the sum of the cutoffs of rounds 1 to k. */
  ghost predicate CutoffShown(log: seq<Event>, f: nat) {
    var x, last := Project(log).rosca, LastCutoff(log);
    && x.Some? && (x.value.currentCutoff.Some? <==> last.Some?) && (last.Some? <==> Published(log) != [])
    && (last.Some? ==>
          var first, k := Published(log)[0].cutoff, x.value.currentRoundNumber;
          && first > 0 && k >= 1 && last.value == first + (k - 1) * f && x.value.currentCutoff.value == CutoffSum(first, f, k))
  }

  lemma {:induction false} CutoffDrift(log: seq<Event>, f: nat)
    requires Orderly(log) && log != [] && Paced(log, f)
    ensures CutoffShown(log, f)
  {
    var init, e := log[..|log| - 1], log[|log| - 1];
    assert log == init + [e];
    if init == [] {
      CutoffPush(init, e);
      ProjectPush(init, e);
      Push(init, e);
    } else {
      CutoffDrift(init, f);
      CutoffStep(init, e, f);
    }
  }

  lemma CutoffStep(log: seq<Event>, e: Event, f: nat)
    requires CutoffShown(log, f) && MayFollow(log, e) && log != []
    requires e.NewRoundStarted? ==> LastCutoff(log).Some? && e.newCutoff == LastCutoff(log).value + f
    ensures CutoffShown(log + [e], f)
  {
    hide Tally, Project, Published, LastCutoff, FindRound, Eligible, Held;
    Push(log, e);
    CutoffPush(log, e);
    ProjectPush(log, e);
    if e.NewRoundStarted? {
      var k := Project(log).rosca.value.currentRoundNumber;
      assert (k - 1) * f + f == k * f;
    } else if e.RoscaStarted? {
      assert CutoffSum(e.firstCutoff, f, 0) == 0;
    }
  }

  lemma {:induction false} SumsGrow(first: nat, f: nat, k: nat)
    requires first > 0 && k >= 1
    ensures CutoffSum(first, f, k) >= first + (k - 1) * f
    ensures CutoffSum(first, f, k) == first + (k - 1) * f <==> k == 1
  {
    if k > 1 {
      SumsGrow(first, f, k - 1);
      assert (k - 2) * f >= 0;
    }
  }

  /** The cutoff shown, with rs the published schedule and k the number of rounds announced. */
  ghost predicate CutoffAgrees(x: RoscaEntity, c: Circle, rs: seq<RoundInfo>, k: nat, f: nat) {
    && (x.currentCutoff.Some? <==> c.nextPayBy.Some?)
    && (c.nextPayBy.Some? ==>
          && rs != [] && x.currentCutoff.value == CutoffSum(rs[0].cutoff, f, k) >= c.nextPayBy.value
          && (x.currentCutoff.value == c.nextPayBy.value <==> k == 1))
  }

  lemma ToldIsShown(c: Circle, f: nat)
    requires Mirrored(c) && Told(c, f)
    ensures Project(c.log).rosca.Some? && CutoffAgrees(Project(c.log).rosca.value, c, Published(c.log), Tally(c.log, RoundStarts), f)
  {
    hide Tally, Orderly, Project, Published, LastCutoff, CutoffSum, Paced;
    CutoffDrift(c.log, f);
    if c.nextPayBy.Some? {
      SumsGrow(Published(c.log)[0].cutoff, f, Tally(c.log, RoundStarts));
    }
  }

  /** In every reachable started circle the indexer's current cutoff is the sum of the cutoffs of all rounds announced; it
      is the pallet's next deadline if and only if no round after the first has been announced, and beyond it afterwards. */
  lemma ShownCutoffIff(w0: World, ms: seq<Move>, w: World, id: RoscaId)
    requires Reached(w0, ms, w) && w.Has(id)
    ensures var c := w.At(id);
            && HasTerms(c) && Project(c.log).rosca.Some?
            && CutoffAgrees(Project(c.log).rosca.value, c, Published(c.log), Tally(c.log, RoundStarts), Terms(c).frequency)
  {
    hide Well, Tally, Mirrored, Project, Published, FreshRun, CutoffAgrees, Told;
    ReachedSound(w0, ms, w);
    GenesisSound(w0);
    RunTold(w0, ms, id);
    ToldIsShown(w.At(id), Terms(w.At(id)).frequency);
  }
}

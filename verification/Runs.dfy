/** The pallet with all its circles, and what holds after every sequence of calls. */
module Runs {
  import opened Prelude
  import opened Storage
  import opened Rules
  import opened Journal
  import opened Schedule
  import opened Rota
  import opened Accounts
  import opened Circles
  import opened Deadlines
  import opened Membership
  import opened Launch
  import opened Payments
  import opened Deposits
  import opened Ledgers

  datatype Call =
    | Join(id: RoscaId, position: Option<u32>)
    | Leave(id: RoscaId)
    | Start(id: RoscaId, byte: nat)
    | Contribute(id: RoscaId)
    | ManualEnd(id: RoscaId)
    | Claim(id: RoscaId, asset: Asset)
    | Add(id: RoscaId, amount: u32)

  /** A call on an existing circle. */
  function CallOn(cfg: Config, now: u64, v: View, signer: Account, call: Call): Result<View> {
    match call
    case Join(_, position) => var c :- JoinRosca(v.c, now, signer, position); Ok(View(c, v.l))
    case Leave(id) => LeaveRosca(id, v, signer)
    case Start(_, byte) => var c :- StartRosca(cfg, v.c, now, signer, byte); Ok(View(c, v.l))
    case Contribute(id) => ContributeToRosca(id, v, now, signer)
    case ManualEnd(id) => ManuallyEnd(id, v, now)
    case Claim(id, asset) => ClaimDeposit(id, v, now, signer, asset)
    case Add(id, amount) => AddDeposit(id, v, signer, amount)
  }

  datatype World = World(cfg: Config, nextId: RoscaId, circles: map<RoscaId, Circle>, ledger: Ledger, now: u64) {
    function At(id: RoscaId): Circle {
      Get(circles, id, EMPTY)
    }

    /** Is anything stored under this id? */
    predicate Has(id: RoscaId) {
      At(id) != EMPTY
    }
  }

  datatype Move =
    | Create(signer: Account, randomOrder: bool, invited: seq<Account>, threshold: u32, amount: u32, asset: Asset,
             frequency: u64, startBy: u64, position: Option<u32>)
    | Do(signer: Account, call: Call)
    | Elapse(until: u64)                                          // the clock never goes back
    | Outside(asset: Asset, from: Account, to: Account, sum: nat) // a transfer that is none of the pallet's

  /** One move; a call that fails is rolled back, and nobody can sign for a pot. */
  function Step(w: World, m: Move): World {
    match m
    case Create(signer, randomOrder, invited, threshold, amount, asset, frequency, startBy, position) =>
      var r := CreateRosca(w.cfg, w.At(w.nextId), w.now, signer, randomOrder, invited, threshold, amount, asset, frequency, startBy, position);
      if signer.Member? && r.Ok? then
        w.(circles := w.circles[w.nextId := r.value],
           nextId := if w.nextId == U32_MAX then 0 else w.nextId + 1)
      else w
    case Do(signer, call) =>
      var r := CallOn(w.cfg, w.now, View(w.At(call.id), w.ledger), signer, call);
      if signer.Member? && r.Ok? then w.(circles := w.circles[call.id := r.value.c], ledger := r.value.l) else w
    case Elapse(t) => if t >= w.now then w.(now := t) else w
    case Outside(a, from, to, x) =>
      if from.Member? && Transfer(w.ledger, a, from, to, x).Ok? then w.(ledger := Transfer(w.ledger, a, from, to, x).value) else w
  }

  function Run(w: World, ms: seq<Move>): World {
    if ms == [] then w else Step(Run(w, ms[..|ms| - 1]), ms[|ms| - 1])
  }

  lemma RunPush(w: World, ms: seq<Move>, m: Move)
    ensures Run(w, ms + [m]) == Step(Run(w, ms), m)
  {
    assert (ms + [m])[..|ms|] == ms;
  }

  /** Before the first call: no circle, the given balances. */
  ghost predicate Genesis(w: World) {
    w.nextId == 0 && forall id: RoscaId :: w.At(id) == EMPTY
  }

  /** A circle that exists is pending and well, running within its schedule, or finished. */
  ghost predicate Well(cfg: Config, id: RoscaId, c: Circle, l: Ledger) {
    if c.pending.Some? then PendingOk(cfg, id, c, l) else Started(id, c, l, Published(c.log))
  }

  // ---------- one call ----------

  /** The deposit left behind in the pot when it is claimed in another asset. */
  ghost function Gain(c: Circle, signer: Account, call: Call): nat {
    if HasTerms(c) && call.Claim? && call.asset != Terms(c).asset then c.Deposit(signer) else 0
  }

  /** What a call may do to its circle, given that the circle was well. */
  ghost predicate GoodStep(cfg: Config, id: RoscaId, v: View, u: View, gain: nat) {
    && Well(cfg, id, u.c, u.l)
    && Kept(v.l, u.l, id)
    && HasTerms(v.c) && HasTerms(u.c) && Terms(u.c) == Terms(v.c)
    && (v.c.pending.None? ==> u.c.pending.None? && Published(u.c.log) == Published(v.c.log))
    && (v.c.completed ==> u.c.completed)
    && Surplus(id, u.c, u.l) == Surplus(id, v.c, v.l) + gain
  }

  lemma PendingStep(cfg: Config, now: u64, v: View, signer: Account, call: Call)
    requires PendingOk(cfg, call.id, v.c, v.l) && signer.Member? && CallOn(cfg, now, v, signer, call).Ok?
    ensures GoodStep(cfg, call.id, v, CallOn(cfg, now, v, signer, call).value, Gain(v.c, signer, call))
  {
    hide Quiet, SavingsOk, DefaultsOk, Seating, Tally, Published, Sum, Ledger.Balance, Kept, Solvent,
      JoinRosca, LeaveRosca, StartRosca, ContributeToRosca, EndLoop, AddDeposit, KeyHolders, Started, Moved;
    var id := call.id;
    KeptSelf(v.l, id);
    match call {
      case Join(_, position) =>
        JoinIs(v.c, now, signer, position);
        JoinPending(cfg, id, v.c, v.l, now, signer, position);
      case Leave(_) =>
        LeavePending(cfg, id, v, signer);
        LeaveKept(cfg, id, v, signer);
      case Start(_, byte) =>
        StartIs(cfg, id, v.c, v.l, now, signer, byte);
        StartRuns(cfg, id, v.c, v.l, now, signer, byte);
        StartGood(cfg, id, v, now, signer, byte);
      case Contribute(_) => NotActive(id, v, now, signer);
      case ManualEnd(_) =>
      case Claim(_, _) =>
      case Add(_, amount) =>
        AddKeeps(id, v, signer, amount);
        AddKept(id, v, signer, amount);
        TouchedPending(cfg, id, v.c, AddDeposit(id, v, signer, amount).value.c, v.l, AddDeposit(id, v, signer, amount).value.l,
                       SecurityDepositContribution(signer, amount));
    }
  }

  lemma NotActive(id: RoscaId, v: View, now: u64, signer: Account)
    requires v.c.active.None?
    ensures ContributeToRosca(id, v, now, signer).Err?
  {
    hide CatchUp, Pay;
  }

  lemma LeaveKept(cfg: Config, id: RoscaId, v: View, signer: Account)
    requires PendingOk(cfg, id, v.c, v.l) && signer.Member? && LeaveRosca(id, v, signer).Ok?
    ensures var u := LeaveRosca(id, v, signer).value;
            && Kept(v.l, u.l, id) && u.c.pending == v.c.pending && u.c.completed == v.c.completed
            && HasTerms(u.c) && Terms(u.c) == Terms(v.c) && Surplus(id, u.c, u.l) == Surplus(id, v.c, v.l)
  {
    LeaveFrame(id, v, signer);
    hide Quiet, SavingsOk, DefaultsOk, Seating, Tally, Published, Sum, Ledger.Balance, Kept, Solvent, LeaveRosca, Moved;
    LeaveIs(cfg, id, v, signer);
    LeaveKeepsBooks(cfg, id, v, signer);
    LeaveKeepsSolvent(cfg, id, v, signer);
  }

  lemma LeaveFrame(id: RoscaId, v: View, signer: Account)
    requires LeaveRosca(id, v, signer).Ok? && signer.Member?
    ensures Kept(v.l, LeaveRosca(id, v, signer).value.l, id)
    ensures LeaveRosca(id, v, signer).value.c.pending == v.c.pending
    ensures LeaveRosca(id, v, signer).value.c.completed == v.c.completed
  {
    hide Kept, Transfer;
    KeptSelf(v.l, id);
    if v.c.Deposit(signer) > 0 {
      TransferKept(v.l, v.c.pending.value.asset, Pot(id), signer, v.c.Deposit(signer), id);
    }
  }

  lemma AddKept(id: RoscaId, v: View, signer: Account, amount: u32)
    requires signer.Member? && AddDeposit(id, v, signer, amount).Ok?
    ensures Kept(v.l, AddDeposit(id, v, signer, amount).value.l, id)
  {
    hide Kept, Transfer;
    TransferKept(v.l, v.c.active.Or(v.c.pending).value.asset, signer, Pot(id), amount, id);
  }

  lemma ClaimKept(id: RoscaId, v: View, now: u64, signer: Account, asset: Asset)
    requires signer.Member? && ClaimDeposit(id, v, now, signer, asset).Ok?
    ensures Kept(v.l, ClaimDeposit(id, v, now, signer, asset).value.l, id)
  {
    hide Kept, Transfer;
    TransferKept(v.l, asset, Pot(id), signer, v.c.deposits[signer], id);
  }

  lemma StartGood(cfg: Config, id: RoscaId, v: View, now: u64, signer: Account, byte: nat)
    requires PendingOk(cfg, id, v.c, v.l) && StartRosca(cfg, v.c, now, signer, byte).Ok?
    requires var c' := StartRosca(cfg, v.c, now, signer, byte).value;
             Running(id, c', v.l, Published(c'.log), 1) && |Published(c'.log)| == |v.c.participants|
    ensures var c' := StartRosca(cfg, v.c, now, signer, byte).value;
            Started(id, c', v.l, Published(c'.log)) && c'.pending.None? && c'.completed == v.c.completed && c'.log[0] == v.c.log[0] && c'.deposits == v.c.deposits
  {
    hide Quiet, SavingsOk, DefaultsOk, Seating, Tally, Published, Sum, Ledger.Balance, Solvent, StartRosca, GenerateRounds, OrderOf, Positioned, Collecting, BooksOk;
    StartIs(cfg, id, v.c, v.l, now, signer, byte);
  }

  lemma RunningStep(cfg: Config, now: u64, v: View, signer: Account, call: Call, rs: seq<RoundInfo>, r: nat)
    requires Running(call.id, v.c, v.l, rs, r) && 1 <= r <= |rs|
    requires signer.Member? && CallOn(cfg, now, v, signer, call).Ok?
    ensures GoodStep(cfg, call.id, v, CallOn(cfg, now, v, signer, call).value, Gain(v.c, signer, call))
  {
    hide Positioned, Collecting, SavingsOk, DefaultsOk, BooksOk, Tally, Published, Sum, Ledger.Balance, Kept, Solvent,
      ContributeToRosca, ManuallyEnd, AddDeposit, KeyHolders, Started, Surplus;
    var id := call.id;
    match call {
      case Join(_, _) =>
      case Leave(_) =>
      case Start(_, _) =>
      case Contribute(_) =>
        ContributeRuns(id, v, now, signer, rs, r);
        ContributeLedger(id, v, now, signer, rs, r);
        StartedWell(cfg, id, ContributeToRosca(id, v, now, signer).value.c, ContributeToRosca(id, v, now, signer).value.l, rs);
      case ManualEnd(_) =>
        EndNeedsFinal(id, v, now);
        ManualEndSucceeds(id, v, now, rs, r);
        ManualEndLedger(id, v, now, rs, r);
        var u := ManuallyEnd(id, v, now).value;
        FinishedIsStarted(id, u.c, u.l, rs);
        StartedWell(cfg, id, u.c, u.l, rs);
      case Claim(_, _) =>
      case Add(_, amount) => AddRunning(cfg, id, v, signer, amount, rs, r);
    }
  }

  lemma AddRunning(cfg: Config, id: RoscaId, v: View, signer: Account, amount: u32, rs: seq<RoundInfo>, r: nat)
    requires Running(id, v.c, v.l, rs, r) && 1 <= r <= |rs|
    requires signer.Member? && AddDeposit(id, v, signer, amount).Ok?
    ensures GoodStep(cfg, id, v, AddDeposit(id, v, signer, amount).value, 0)
  {
    hide Positioned, Collecting, SavingsOk, DefaultsOk, BooksOk, Tally, Published, Sum, Ledger.Balance, Kept, Solvent,
      AddDeposit, KeyHolders, Started;
    AddKeeps(id, v, signer, amount);
    AddKept(id, v, signer, amount);
    var u := AddDeposit(id, v, signer, amount).value;
    TouchedRunning(id, v.c, u.c, v.l, u.l, rs, r, SecurityDepositContribution(signer, amount));
    RunningIsStarted(id, u.c, u.l, rs, r);
    StartedWell(cfg, id, u.c, u.l, rs);
  }

  lemma StartedWell(cfg: Config, id: RoscaId, c: Circle, l: Ledger, rs: seq<RoundInfo>)
    requires Started(id, c, l, rs)
    ensures Well(cfg, id, c, l) && c.pending.None? && Published(c.log) == rs
  {
    hide Positioned, Collecting, SavingsOk, DefaultsOk, BooksOk, Tally, Published, Sum, Ledger.Balance, Solvent;
  }

  lemma FinishedStep(cfg: Config, now: u64, v: View, signer: Account, call: Call, rs: seq<RoundInfo>)
    requires Finished(call.id, v.c, v.l, rs)
    requires signer.Member? && CallOn(cfg, now, v, signer, call).Ok?
    ensures call.Claim?
    ensures GoodStep(cfg, call.id, v, CallOn(cfg, now, v, signer, call).value, Gain(v.c, signer, call))
  {
    hide ScheduleFor, SavingsOk, DefaultsOk, BooksOk, Tally, Published, Sum, Ledger.Balance, Kept, Solvent,
      ClaimDeposit, KeyHolders, Started, CatchUp, EndLoop, Pay;
    var id := call.id;
    match call {
      case Join(_, _) =>
      case Leave(_) =>
      case Start(_, _) =>
      case Contribute(_) =>
      case ManualEnd(_) =>
      case Claim(_, asset) =>
        ClaimKeeps(id, v, now, signer, asset);
        ClaimKept(id, v, now, signer, asset);
        var u := ClaimDeposit(id, v, now, signer, asset).value;
        TouchedFinished(id, v.c, u.c, v.l, u.l, rs, SecurityDepositClaimed(signer, v.c.Deposit(signer)));
        FinishedIsStarted(id, u.c, u.l, rs);
        StartedWell(cfg, id, u.c, u.l, rs);
      case Add(_, _) =>
    }
  }

  /** Every successful call on a well circle is a good step. */
  lemma CallGood(cfg: Config, now: u64, v: View, signer: Account, call: Call)
    requires Well(cfg, call.id, v.c, v.l) && signer.Member? && CallOn(cfg, now, v, signer, call).Ok?
    ensures GoodStep(cfg, call.id, v, CallOn(cfg, now, v, signer, call).value, Gain(v.c, signer, call))
  {
    hide PendingOk, Finished, Running, GoodStep, CallOn, Gain, Tally, Published;
    if v.c.pending.Some? {
      PendingStep(cfg, now, v, signer, call);
    } else {
      var rs := Published(v.c.log);
      var r := Tally(v.c.log, RoundStarts);
      if Running(call.id, v.c, v.l, rs, r) && r <= |rs| {
        RunningSchedule(call.id, v.c, v.l, rs, r);
        RunningStep(cfg, now, v, signer, call, rs, r);
      } else {
        FinishedStep(cfg, now, v, signer, call, rs);
      }
    }
  }

  // ---------- every run ----------

  /** Every circle that exists is well. */
  ghost predicate Sound(w: World) {
    forall id: RoscaId :: w.Has(id) ==> Well(w.cfg, id, w.At(id), w.ledger)
  }

  /** A circle stays well as long as its own pot does not lose money. */
  lemma WellFrame(cfg: Config, id: RoscaId, c: Circle, l: Ledger, l': Ledger)
    requires Well(cfg, id, c, l)
    requires forall a: Asset :: l'.Balance(a, Pot(id)) >= l.Balance(a, Pot(id))
    ensures Well(cfg, id, c, l')
  {
    hide Positioned, Collecting, SavingsOk, DefaultsOk, BooksOk, Tally, Published, Sum, Ledger.Balance, Quiet, Seating, ScheduleFor;
  }

  /** The move is not an accepted creation under an id already in use. */
  predicate Fresh(w: World, m: Move) {
    m.Create? && Step(w, m) != w ==> !w.Has(w.nextId)
  }

  lemma WellExists(cfg: Config, id: RoscaId, c: Circle, l: Ledger)
    requires Well(cfg, id, c, l)
    ensures c != EMPTY
  {
    hide Positioned, Collecting, SavingsOk, DefaultsOk, BooksOk, Tally, Published, Sum, Ledger.Balance, Quiet, Seating, ScheduleFor;
  }

  lemma DoSound(w: World, signer: Account, call: Call)
    requires Sound(w)
    ensures Sound(Step(w, Do(signer, call)))
    ensures forall j: RoscaId :: Step(w, Do(signer, call)).Has(j) <==> w.Has(j)
    ensures Step(w, Do(signer, call)) != w ==>
              var id := call.id;
              && w.Has(id)
              && GoodStep(w.cfg, id, View(w.At(id), w.ledger), View(Step(w, Do(signer, call)).At(id), Step(w, Do(signer, call)).ledger),
                          Gain(w.At(id), signer, call))
  {
    hide Well, CallOn, Gain, Kept, Ledger.Balance;
    var id := call.id;
    var v := View(w.At(id), w.ledger);
    var r := CallOn(w.cfg, w.now, v, signer, call);
    if signer.Member? && r.Ok? {
      NothingOnEmpty(w.cfg, w.now, w.ledger, signer, call);
      CallGood(w.cfg, w.now, v, signer, call);
      var w' := Step(w, Do(signer, call));
      assert w'.At(id) == r.value.c;
      WellExists(w.cfg, id, w'.At(id), w'.ledger);
      forall j: RoscaId | j != id ensures w'.At(j) == w.At(j) {}
      forall j: RoscaId | j != id && w.Has(j) ensures Well(w.cfg, j, w'.At(j), w'.ledger) {
        KeptOthers(w.ledger, w'.ledger, id, j);
        WellFrame(w.cfg, j, w.At(j), w.ledger, w'.ledger);
        assert w'.At(j) == w.At(j);
      }
      SoundAgain(w, w', id);
    }
  }

  lemma SoundAgain(w: World, w': World, id: RoscaId)
    requires Sound(w) && w'.cfg == w.cfg
    requires forall j: RoscaId :: j != id ==> w'.At(j) == w.At(j)
    requires forall j: RoscaId :: j != id && w.Has(j) ==> Well(w.cfg, j, w'.At(j), w'.ledger)
    requires Well(w.cfg, id, w'.At(id), w'.ledger)
    ensures Sound(w')
    ensures forall j: RoscaId :: j != id ==> (w'.Has(j) <==> w.Has(j))
  {
    hide Well, World.At;
  }

  lemma KeptOthers(l: Ledger, l': Ledger, id: RoscaId, j: RoscaId)
    requires Kept(l, l', id) && j != id
    ensures forall a: Asset :: l'.Balance(a, Pot(j)) == l.Balance(a, Pot(j))
  {
  }

  lemma NothingOnEmpty(cfg: Config, now: u64, l: Ledger, signer: Account, call: Call)
    ensures CallOn(cfg, now, View(EMPTY, l), signer, call).Err?
  {
    hide CatchUp, EndLoop, Pay;
  }

  lemma CreateSound(w: World, m: Move)
    requires Sound(w) && m.Create? && Fresh(w, m)
    ensures Sound(Step(w, m))
    ensures forall j: RoscaId :: Step(w, m).Has(j) <==> w.Has(j) || (Step(w, m) != w && j == w.nextId)
    ensures Step(w, m) != w ==> Step(w, m).nextId == (w.nextId + 1) % IDS
  {
    hide Well, CreateRosca, PendingOk;
    var r := CreateRosca(w.cfg, w.At(w.nextId), w.now, m.signer, m.randomOrder, m.invited, m.threshold, m.amount, m.asset, m.frequency, m.startBy, m.position);
    if m.signer.Member? && r.Ok? {
      var w' := Step(w, m);
      assert w'.nextId != w.nextId;
      CreatePending(w.cfg, w.nextId, w.ledger, w.now, m.signer, m.randomOrder, m.invited, m.threshold, m.amount, m.asset, m.frequency, m.startBy, m.position);
      PendingIsWell(w.cfg, w.nextId, r.value, w.ledger);
      WellExists(w.cfg, w.nextId, r.value, w.ledger);
      forall j: RoscaId | j != w.nextId ensures w'.At(j) == w.At(j) {}
      SoundAgain(w, w', w.nextId);
    }
  }

  lemma PendingIsWell(cfg: Config, id: RoscaId, c: Circle, l: Ledger)
    requires PendingOk(cfg, id, c, l)
    ensures Well(cfg, id, c, l)
  {
  }

  lemma OutsideSound(w: World, m: Move)
    requires Sound(w) && m.Outside?
    ensures Sound(Step(w, m))
    ensures forall j: RoscaId :: Step(w, m).Has(j) <==> w.Has(j)
  {
    hide Well, Transfer, Ledger.Balance;
    var w' := Step(w, m);
    if w' != w {
      TransferEffect(w.ledger, m.asset, m.from, m.to, m.sum);
      forall id: RoscaId | w'.Has(id) ensures Well(w.cfg, id, w'.At(id), w'.ledger) {
        assert w'.At(id) == w.At(id);
        GiftsOnly(w.ledger, w'.ledger, m.asset, m.from, m.to, m.sum, id);
        WellFrame(w.cfg, id, w.At(id), w.ledger, w'.ledger);
      }
    }
  }

  lemma GiftsOnly(l: Ledger, l': Ledger, a: Asset, from: Account, to: Account, x: nat, id: RoscaId)
    requires Moved(l, l', a, from, to, x) && from.Member?
    ensures forall b: Asset :: l'.Balance(b, Pot(id)) == l.Balance(b, Pot(id)) + if b == a && to == Pot(id) then x else 0
  {
  }

  lemma StepSound(w: World, m: Move)
    requires Sound(w) && Fresh(w, m)
    ensures Sound(Step(w, m))
    ensures forall j: RoscaId :: Step(w, m).Has(j) <==> w.Has(j) || (m.Create? && Step(w, m) != w && j == w.nextId)
  {
    match m {
      case Create(_, _, _, _, _, _, _, _, _) => CreateSound(w, m);
      case Do(signer, call) => DoSound(w, signer, call);
      case Elapse(_) => ElapseSound(w, m);
      case Outside(_, _, _, _) => OutsideSound(w, m);
    }
  }

  lemma ElapseSound(w: World, m: Move)
    requires Sound(w) && m.Elapse?
    ensures Sound(Step(w, m))
    ensures forall j: RoscaId :: Step(w, m).Has(j) <==> w.Has(j)
  {
    hide Well;
    var w' := Step(w, m);
    forall id: RoscaId ensures w'.At(id) == w.At(id) {}
  }

  lemma GenesisSound(w: World)
    requires Genesis(w)
    ensures Sound(w) && forall j: RoscaId :: !w.Has(j)
  {
  }

  /** No accepted creation of the run is under an id already in use. */
  predicate FreshRun(w: World, ms: seq<Move>) {
    ms != [] ==> FreshRun(w, ms[..|ms| - 1]) && Fresh(Run(w, ms[..|ms| - 1]), ms[|ms| - 1])
  }

  /** Every run keeps every circle well, as long as no id is used twice. */
  lemma {:induction false} RunSound(w: World, ms: seq<Move>)
    requires Sound(w) && FreshRun(w, ms)
    ensures Sound(Run(w, ms)) && Run(w, ms).cfg == w.cfg
    ensures forall j: RoscaId :: w.Has(j) ==> Run(w, ms).Has(j)
  {
    hide Well, CallOn, CreateRosca, Transfer, Fresh;
    if ms != [] {
      RunSound(w, ms[..|ms| - 1]);
      StepSound(Run(w, ms[..|ms| - 1]), ms[|ms| - 1]);
    }
  }

  // ---------- the id counter ----------

  const IDS: nat := 0x1_0000_0000

  /** How many creations of the run are accepted. */
  function Created(w: World, ms: seq<Move>): nat {
    if ms == [] then 0
    else
      var before, m := ms[..|ms| - 1], ms[|ms| - 1];
      Created(w, before) + if m.Create? && Step(Run(w, before), m) != Run(w, before) then 1 else 0
  }

  lemma {:induction false} CreatedAtMost(w: World, ms: seq<Move>)
    ensures Created(w, ms) <= |ms|
  {
    if ms != [] {
      CreatedAtMost(w, ms[..|ms| - 1]);
    }
  }

  lemma CounterSteps(w: World, m: Move)
    ensures Step(w, m).nextId == if m.Create? && Step(w, m) != w then (w.nextId + 1) % IDS else w.nextId
  {
    hide CallOn, CreateRosca, Transfer;
  }

  /** The counter is the number of accepted creations modulo 2^32, in every run. */
  lemma {:induction false} CounterIs(w: World, ms: seq<Move>)
    requires w.nextId == 0
    ensures Run(w, ms).nextId == Created(w, ms) % IDS
  {
    hide Step;
    if ms != [] {
      CounterIs(w, ms[..|ms| - 1]);
      CounterSteps(Run(w, ms[..|ms| - 1]), ms[|ms| - 1]);
    }
  }

  /** From an empty pallet, ids are used in order, and none is used twice if and only if there are at most 2^32
      accepted creations. */
  lemma {:induction false} IdsInOrder(w: World, ms: seq<Move>)
    requires Genesis(w)
    ensures FreshRun(w, ms) <==> Created(w, ms) <= IDS
    ensures FreshRun(w, ms) ==> forall j: RoscaId :: Run(w, ms).Has(j) <==> j < Created(w, ms)
  {
    hide Step, Well, World.Has;
    GenesisSound(w);
    if ms != [] {
      var before, m := ms[..|ms| - 1], ms[|ms| - 1];
      IdsInOrder(w, before);
      CounterIs(w, before);
      if FreshRun(w, before) {
        RunSound(w, before);
        var v := Run(w, before);
        if Fresh(v, m) {
          StepSound(v, m);
        }
      }
    }
  }
}

/** After every run the indexer's entities agree with storage, and nobody is paid by themself
    unless somebody contributes as the scheduled recipient. */
module Agreement {
  import opened Prelude
  import opened Storage
  import opened Rules
  import opened Journal
  import opened Schedule
  import opened Rota
  import opened Accounts
  import opened Circles
  import opened Deadlines
  import opened Membership
  import opened Launch
  import opened Deposits
  import opened Ledgers
  import opened Chronicle
  import opened Mirror
  import opened Accounting
  import opened Runs

  /** The way a circle is well: pending, in some round of its schedule, or finished. */
  lemma WellCases(cfg: Config, id: RoscaId, c: Circle, l: Ledger)
    requires Well(cfg, id, c, l)
    ensures var rs, r := Published(c.log), Tally(c.log, RoundStarts);
            || (PendingOk(cfg, id, c, l) && c.pending.Some? && c.active.None? && !c.completed)
            || (Running(id, c, l, rs, r) && 1 <= r <= |rs| && c.active.Some? && c.pending.None? && !c.completed)
            || (Finished(id, c, l, rs) && c.completed && c.pending.None? && c.active.None?)
  {
    hide Seating, Quiet, SavingsOk, DefaultsOk, Solvent, BooksOk, Tally, Published, OrderAt, ScheduleFor, DueAt, Collecting;
  }

  lemma CallMirror(cfg: Config, now: u64, v: View, signer: Account, call: Call)
    requires Well(cfg, call.id, v.c, v.l) && signer.Member? && CallOn(cfg, now, v, signer, call).Ok? && Mirrored(v.c)
    ensures Mirrored(CallOn(cfg, now, v, signer, call).value.c)
  {
    hide Well, PendingOk, Running, Finished, Mirrored, JoinRosca, LeaveRosca, StartRosca, ContributeToRosca, ManuallyEnd, ClaimDeposit, AddDeposit,
      Tally, Published, Moved, Ledger.Balance;
    var id := call.id;
    var rs, r := Published(v.c.log), Tally(v.c.log, RoundStarts);
    WellCases(cfg, id, v.c, v.l);
    CallNeeds(cfg, now, v, signer, call);
    match call {
      case Join(_, position) => JoinMirror(v.c, now, signer, position);
      case Leave(_) => LeaveMirror(cfg, id, v, signer);
      case Start(_, byte) => StartMirror(cfg, id, v.c, v.l, now, signer, byte);
      case Contribute(_) => ContributeMirror(id, v, now, signer, rs, r);
      case ManualEnd(_) =>
        EndNeedsFinal(id, v, now);
        ManualEndMirror(id, v, now, rs, r);
      case Claim(_, asset) =>
        ClaimIs(id, v, now, signer, asset);
        SavingsFollow(cfg, id, v.c, v.l, signer);
        DepositMirror(v.c, ClaimDeposit(id, v, now, signer, asset).value.c, SecurityDepositClaimed(signer, v.c.Deposit(signer)));
      case Add(_, amount) =>
        AddIs(id, v, v.c.active.Or(v.c.pending).value, signer, amount);
        AddMayFollow(v.c, signer, amount);
        DepositMirror(v.c, AddDeposit(id, v, signer, amount).value.c, SecurityDepositContribution(signer, amount));
    }
  }

  lemma SavingsFollow(cfg: Config, id: RoscaId, c: Circle, l: Ledger, p: Account)
    requires Well(cfg, id, c, l)
    ensures MayFollow(c.log, SecurityDepositClaimed(p, c.Deposit(p)))
  {
    hide Seating, Quiet, SavingsOk, DefaultsOk, Solvent, BooksOk, Positioned, Collecting, MayFollow, Tally;
    ClaimMayFollow(c, p);
  }

  /** The phase each call needs. */
  lemma CallNeeds(cfg: Config, now: u64, v: View, signer: Account, call: Call)
    requires CallOn(cfg, now, v, signer, call).Ok?
    ensures call.Join? || call.Leave? || call.Start? ==> v.c.pending.Some?
    ensures call.Contribute? || call.ManualEnd? ==> v.c.active.Some?
    ensures call.Claim? ==> v.c.finalPayBy.Some?
    ensures call.Add? ==> v.c.active.Or(v.c.pending).Some? && !v.c.completed
  {
    hide CatchUp, Pay, EndLoop, Transfer;
  }

  /** Every circle that exists is mirrored by the indexer. */
  ghost predicate AllMirrored(w: World) {
    forall id: RoscaId :: w.Has(id) ==> Mirrored(w.At(id))
  }

  lemma StepMirror(w: World, m: Move)
    requires Sound(w) && AllMirrored(w) && Fresh(w, m)
    ensures AllMirrored(Step(w, m))
  {
    hide Well, Mirrored, CallOn, CreateRosca, Transfer;
    var w' := Step(w, m);
    match m {
      case Create(signer, randomOrder, invited, threshold, amount, asset, frequency, startBy, position) =>
        if w' != w {
          assert w.At(w.nextId) == EMPTY;
          CreateMirror(w.cfg, w.now, signer, randomOrder, invited, threshold, amount, asset, frequency, startBy, position);
        }
        forall id: RoscaId | w'.Has(id) ensures Mirrored(w'.At(id)) {
          assert w.Has(id) ==> Mirrored(w.At(id));
        }
      case Do(signer, call) =>
        if w' != w {
          NothingOnEmpty(w.cfg, w.now, w.ledger, signer, call);
          assert w.Has(call.id) by { assert w.At(call.id) != EMPTY; }
          CallMirror(w.cfg, w.now, View(w.At(call.id), w.ledger), signer, call);
        }
        forall id: RoscaId | w'.Has(id) ensures Mirrored(w'.At(id)) {
          assert Mirrored(w.At(id));
        }
      case Elapse(_) =>
        forall id: RoscaId | w'.Has(id) ensures Mirrored(w'.At(id)) {
          assert Mirrored(w.At(id));
        }
      case Outside(_, _, _, _) =>
        forall id: RoscaId | w'.Has(id) ensures Mirrored(w'.At(id)) {
          assert Mirrored(w.At(id));
        }
    }
  }

  lemma {:induction false} RunMirror(w: World, ms: seq<Move>)
    requires Sound(w) && AllMirrored(w) && FreshRun(w, ms)
    ensures AllMirrored(Run(w, ms))
  {
    hide Well, Mirrored, Step;
    if ms != [] {
      var before := ms[..|ms| - 1];
      RunMirror(w, before);
      RunSound(w, before);
      StepMirror(Run(w, before), ms[|ms| - 1]);
    }
  }

  // ---------- paying oneself over a run ----------

  /** Exactly one more payment to oneself, by `signer`, if `self`; otherwise none. */
  ghost predicate SelfGrew(log: seq<Event>, log': seq<Event>, signer: Account, self: bool) {
    forall p :: Tally(log', Paid(p, p)) == Tally(log, Paid(p, p)) + If(p == signer && self)
  }

  /** The call is a contribution by the member whose turn it is to be paid at this time. */
  ghost predicate ToSelf(c: Circle, now: u64, signer: Account, call: Call) {
    var rs, r := Published(c.log), Tally(c.log, RoundStarts);
    call.Contribute? && 1 <= r <= |rs| && PaysSelf(rs, r, now, signer)
  }

  /** This move is such a contribution to circle `id`, and it is accepted. */
  ghost predicate SelfPaying(w: World, m: Move, id: RoscaId) {
    m.Do? && m.call.id == id && Step(w, m) != w && ToSelf(w.At(id), w.now, m.signer, m.call)
  }

  lemma NoneGrew(log: seq<Event>, log': seq<Event>, signer: Account)
    requires SamePaid(log, log')
    ensures SelfGrew(log, log', signer, false)
  {
    hide Tally;
  }

  lemma CallPaid(cfg: Config, now: u64, v: View, signer: Account, call: Call)
    requires Well(cfg, call.id, v.c, v.l) && signer.Member? && CallOn(cfg, now, v, signer, call).Ok?
    ensures SelfGrew(v.c.log, CallOn(cfg, now, v, signer, call).value.c.log, signer, ToSelf(v.c, now, signer, call))
  {
    if call.Contribute? {
      ContributionPaid(cfg, now, v, signer, call);
    } else {
      hide SelfGrew, CallOn, Well;
      OthersPaid(cfg, now, v, signer, call);
      NoneGrew(v.c.log, CallOn(cfg, now, v, signer, call).value.c.log, signer);
    }
  }

  lemma ContributionPaid(cfg: Config, now: u64, v: View, signer: Account, call: Call)
    requires Well(cfg, call.id, v.c, v.l) && call.Contribute? && CallOn(cfg, now, v, signer, call).Ok?
    ensures SelfGrew(v.c.log, CallOn(cfg, now, v, signer, call).value.c.log, signer, ToSelf(v.c, now, signer, call))
  {
    hide Well, PendingOk, Running, Finished, ContributeToRosca, Tally, Published;
    var rs, r := Published(v.c.log), Tally(v.c.log, RoundStarts);
    WellCases(cfg, call.id, v.c, v.l);
    CallNeeds(cfg, now, v, signer, call);
    SelfPaymentIff(call.id, v, now, signer, rs, r);
  }

  lemma OthersPaid(cfg: Config, now: u64, v: View, signer: Account, call: Call)
    requires Well(cfg, call.id, v.c, v.l) && signer.Member? && CallOn(cfg, now, v, signer, call).Ok? && !call.Contribute?
    ensures SamePaid(v.c.log, CallOn(cfg, now, v, signer, call).value.c.log)
  {
    hide Well, PendingOk, Running, Finished, JoinRosca, LeaveRosca, StartRosca, ContributeToRosca, ManuallyEnd, ClaimDeposit, AddDeposit,
      Tally, Published, Moved, Ledger.Balance, GenerateRounds, OrderOf, MayStart, CloseRounds, Complete;
    var id := call.id;
    var rs, r := Published(v.c.log), Tally(v.c.log, RoundStarts);
    WellCases(cfg, id, v.c, v.l);
    CallNeeds(cfg, now, v, signer, call);
    var log := v.c.log;
    match call {
      case Join(_, position) =>
        JoinIs(v.c, now, signer, position);
        PushSamePaid(log, JoinedRosca(signer));
      case Leave(_) =>
        LeaveIs(cfg, id, v, signer);
        var e := SecurityDepositClaimed(signer, v.c.Deposit(signer));
        PushSamePaid(log, e);
        PushSamePaid(log, LeftRosca(signer));
        PushSamePaid(log + [e], LeftRosca(signer));
      case Start(_, byte) =>
        StartIs(cfg, id, v.c, v.l, now, signer, byte);
        var c' := StartRosca(cfg, v.c, now, signer, byte).value;
        PushSamePaid(log, c'.log[|log|]);
      case ManualEnd(_) =>
        EndNeedsFinal(id, v, now);
        ManualEndSucceeds(id, v, now, rs, r);
        CloseRoundsPaid(id, v, |rs| + 1 - r, rs, r);
        var u := CloseRounds(id, v, |rs| + 1 - r).value;
        CompleteLog(u.c);
        PushSamePaid(u.c.log, RoscaComplete);
      case Claim(_, asset) =>
        ClaimIs(id, v, now, signer, asset);
        PushSamePaid(log, SecurityDepositClaimed(signer, v.c.Deposit(signer)));
      case Add(_, amount) =>
        AddIs(id, v, v.c.active.Or(v.c.pending).value, signer, amount);
        PushSamePaid(log, SecurityDepositContribution(signer, amount));
    }
  }

  /** A move keeps a circle's log free of payments to oneself if and only if it is not such a payment. */
  lemma StepPaid(w: World, m: Move, id: RoscaId)
    requires Sound(w) && Fresh(w, m)
    ensures NobodyPaidSelf(Step(w, m).At(id).log) <==> NobodyPaidSelf(w.At(id).log) && !SelfPaying(w, m, id)
  {
    hide Well, CallOn, CreateRosca, Transfer, NobodyPaidSelf, ToSelf;
    var w' := Step(w, m);
    if w' == w {
    } else if m.Do? && m.call.id == id {
      DoPaid(w, m);
    } else if m.Create? && id == w.nextId {
      CreatedPaid(w.cfg, w.now, m);
      NobodyYet();
    } else {
      assert w'.At(id) == w.At(id);
    }
  }

  lemma NobodyYet()
    ensures NobodyPaidSelf([])
  {
  }

  lemma DoPaid(w: World, m: Move)
    requires Sound(w) && m.Do? && Step(w, m) != w
    ensures var id := m.call.id;
            NobodyPaidSelf(Step(w, m).At(id).log) <==> NobodyPaidSelf(w.At(id).log) && !SelfPaying(w, m, id)
  {
    hide Well, CallOn, NobodyPaidSelf, ToSelf, Tally, SelfGrew, GoodStep, World.Has;
    DoSound(w, m.signer, m.call);
    var w', id := Step(w, m), m.call.id;
    CallPaid(w.cfg, w.now, View(w.At(id), w.ledger), m.signer, m.call);
    GrewFromNone(w.At(id).log, w'.At(id).log, m.signer, SelfPaying(w, m, id));
  }

  lemma GrewFromNone(log: seq<Event>, log': seq<Event>, signer: Account, self: bool)
    requires SelfGrew(log, log', signer, self)
    ensures NobodyPaidSelf(log') <==> NobodyPaidSelf(log) && !self
  {
    hide Tally;
    if self {
      assert Tally(log', Paid(signer, signer)) > 0;
    }
  }

  lemma CreatedPaid(cfg: Config, now: u64, m: Move)
    requires m.Create?
    requires CreateRosca(cfg, EMPTY, now, m.signer, m.randomOrder, m.invited, m.threshold, m.amount, m.asset, m.frequency, m.startBy, m.position).Ok?
    ensures NobodyPaidSelf(CreateRosca(cfg, EMPTY, now, m.signer, m.randomOrder, m.invited, m.threshold, m.amount, m.asset, m.frequency, m.startBy, m.position).value.log)
  {
    hide SortDedup;
    var log := CreateRosca(cfg, EMPTY, now, m.signer, m.randomOrder, m.invited, m.threshold, m.amount, m.asset, m.frequency, m.startBy, m.position).value.log;
    EmptyLog();
    PushSamePaid([], log[0]);
    assert log == [] + [log[0]];
    hide Tally;
  }

  /** No accepted contribution of the run to circle `id` was made by the member whose turn it was to be paid. */
  ghost predicate NeverSelfPays(w: World, ms: seq<Move>, id: RoscaId) {
    ms != [] ==> NeverSelfPays(w, ms[..|ms| - 1], id) && !SelfPaying(Run(w, ms[..|ms| - 1]), ms[|ms| - 1], id)
  }

  /** After a run a circle's log holds no payment to oneself if and only if none was made on the way. */
  lemma {:induction false} RunPaid(w: World, ms: seq<Move>, id: RoscaId)
    requires Sound(w) && NobodyPaidSelf(w.At(id).log) && FreshRun(w, ms)
    ensures NobodyPaidSelf(Run(w, ms).At(id).log) <==> NeverSelfPays(w, ms, id)
  {
    hide Well, NobodyPaidSelf, Step, SelfPaying;
    if ms != [] {
      var before := ms[..|ms| - 1];
      RunPaid(w, before, id);
      RunSound(w, before);
      StepPaid(Run(w, before), ms[|ms| - 1], id);
    }
  }
}

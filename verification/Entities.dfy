/** The remaining fields of a circle's entity in the indexer: terms, creator, guests, starter, and the order of members. */
module Entities {
  import opened Prelude
  import opened Storage
  import opened Rules
  import opened Journal
  import opened Schedule
  import opened Rota
  import opened Accounts
  import opened Circles
  import opened Membership
  import opened Chronicle
  import opened Projection
  import opened Mirror
  import opened Runs
  import opened Theorems

  // ---------- what the log determines ----------

  /** Who started the circle, according to the log. */
  ghost function StarterIn(log: seq<Event>): Option<Account> {
    if log == [] then None
    else if log[|log| - 1].RoscaStarted? then Some(log[|log| - 1].startedBy)
    else StarterIn(log[..|log| - 1])
  }

  lemma StarterPush(log: seq<Event>, e: Event)
    ensures StarterIn(log + [e]) == if e.RoscaStarted? then Some(e.startedBy) else StarterIn(log)
  {
    assert (log + [e])[..|log|] == log;
  }

  /** The entity carries what the creation announced, and who started the circle if anybody did. */
  ghost predicate Carries(ix: Index, log: seq<Event>) {
    && log != [] && log[0].RoscaCreated? && ix.rosca.Some?
    && ix.rosca.value.details == log[0].details && ix.rosca.value.creator == log[0].creator && ix.rosca.value.eligible == log[0].eligible
    && ix.rosca.value.startedBy == StarterIn(log)
  }

  lemma {:induction false} FieldsProjected(log: seq<Event>)
    requires Orderly(log) && log != []
    ensures Carries(Project(log), log) && (StarterIn(log).Some? <==> Published(log) != [])
  {
    var init, e := log[..|log| - 1], log[|log| - 1];
    assert log == init + [e];
    if init == [] {
      ProjectPush(init, e);
      StarterPush(init, e);
      Push(init, e);
    } else {
      FieldsProjected(init);
      FieldsStep(init, e);
    }
  }

  lemma FieldsStep(log: seq<Event>, e: Event)
    requires Carries(Project(log), log) && MayFollow(log, e) && (StarterIn(log).Some? <==> Published(log) != [])
    ensures Carries(Project(log + [e]), log + [e]) && (StarterIn(log + [e]).Some? <==> Published(log + [e]) != [])
  {
    hide Project, StarterIn, Published, Tally, FindRound, Held, Eligible;
    ProjectPush(log, e);
    StarterPush(log, e);
    Push(log, e);
    assert (log + [e])[0] == log[0];
  }

  // ---------- what calls append ----------

  /** Events were appended, none of them a creation or a start. */
  ghost predicate Appends(log: seq<Event>, log': seq<Event>) {
    && log <= log'
    && forall i :: |log| <= i < |log'| ==> !log'[i].RoscaCreated? && !log'[i].RoscaStarted?
  }

  lemma AppendsTwice(log: seq<Event>, log1: seq<Event>, log2: seq<Event>)
    requires Appends(log, log1) && Appends(log1, log2)
    ensures Appends(log, log2)
  {
    assert forall i :: 0 <= i < |log1| ==> log2[i] == log1[i];
  }

  lemma AppendsOne(log: seq<Event>, e: Event)
    requires !e.RoscaCreated? && !e.RoscaStarted?
    ensures Appends(log, log + [e])
  {
  }

  lemma AppendsNothing(log: seq<Event>)
    ensures Appends(log, log)
  {
  }

  /** What contributions and endings may change: the running round, the deposits, the defaults, and the log, by appending.
      The members, the guests, their count, the slots and the final deadline stay. */
  ghost predicate PlaysOn(c: Circle, c': Circle) {
    && Appends(c.log, c'.log)
    && c' == c.(active := c'.active, completed := c'.completed, order := c'.order, claimant := c'.claimant,
                nextPayBy := c'.nextPayBy, contributors := c'.contributors, contributionCount := c'.contributionCount,
                deposits := c'.deposits, defaults := c'.defaults, log := c'.log)
  }

  lemma PlaysOnTwice(c: Circle, c1: Circle, c2: Circle)
    requires PlaysOn(c, c1) && PlaysOn(c1, c2)
    ensures PlaysOn(c, c2)
  {
    hide Appends;
    AppendsTwice(c.log, c1.log, c2.log);
  }

  lemma SettleOnePlays(id: RoscaId, d: Details, r: Account, v: View, p: Account)
    requires SettleOne(id, d, r, v, p).Ok?
    ensures PlaysOn(v.c, SettleOne(id, d, r, v, p).value.c)
  {
    hide Transfer, Appends;
    var log, e, held := v.c.log, ParticipantDefaulted(r, p), v.c.Deposit(p);
    AppendsNothing(log);
    AppendsOne(log, DepositDeducted(p, r, d.amount, true));
    AppendsOne(log, e);
    AppendsOne(log, DepositDeducted(p, r, held, false));
    AppendsOne(log + [DepositDeducted(p, r, held, false)], e);
    AppendsTwice(log, log + [DepositDeducted(p, r, held, false)], log + [DepositDeducted(p, r, held, false)] + [e]);
  }

  lemma {:induction false} SettlePlays(id: RoscaId, d: Details, r: Account, v: View, ps: seq<Account>)
    requires Settle(id, d, r, v, ps).Ok?
    ensures PlaysOn(v.c, Settle(id, d, r, v, ps).value.c)
  {
    if ps == [] {
      AppendsNothing(v.c.log);
    } else {
      var init := ps[..|ps| - 1];
      SettlePlays(id, d, r, v, init);
      hide PlaysOn, SettleOne;
      var v1 := Settle(id, d, r, v, init).value;
      SettleOnePlays(id, d, r, v1, ps[|ps| - 1]);
      PlaysOnTwice(v.c, v1.c, Settle(id, d, r, v, ps).value.c);
    }
  }

  lemma CloseRoundPlays(id: RoscaId, v: View)
    requires CloseRound(id, v).Ok?
    ensures PlaysOn(v.c, CloseRound(id, v).value.c)
  {
    hide Settle, ClearPrefix;
    SettlePlays(id, v.c.active.value, v.c.claimant.value, v, v.c.order.value);
    PlaysOnTwice(v.c, ProcessDefaulters(id, v).value.c, CloseRound(id, v).value.c);
  }

  lemma {:induction false} CatchUpPlays(id: RoscaId, v: View, now: u64)
    requires CatchUp(id, v, now).Ok?
    ensures PlaysOn(v.c, CatchUp(id, v, now).value.v.c)
    decreases if v.c.nextPayBy.Some? && v.c.nextPayBy.value <= now then now - v.c.nextPayBy.value + 1 else 0
  {
    hide ProcessDefaulters, AdvanceRound, CloseRound;
    if v.c.nextPayBy.value <= now {
      CloseRoundPlays(id, v);
      var v1 := CloseRound(id, v).value;
      if CheckAndComplete(v1.c).value.done {
        PlaysOnTwice(v.c, v1.c, Complete(v1.c));
      } else {
        CatchUpPlays(id, v1, now);
        PlaysOnTwice(v.c, v1.c, CatchUp(id, v1, now).value.v.c);
      }
    }
  }

  lemma {:induction false} EndLoopPlays(id: RoscaId, v: View, final: u64)
    requires EndLoop(id, v, final).Ok?
    ensures PlaysOn(v.c, EndLoop(id, v, final).value.c)
    decreases if v.c.nextPayBy.Some? && v.c.nextPayBy.value <= final then final - v.c.nextPayBy.value + 1 else 0
  {
    hide ProcessDefaulters, AdvanceRound, CloseRound;
    if v.c.nextPayBy.Some? && v.c.nextPayBy.value <= final {
      CloseRoundPlays(id, v);
      var v1 := CloseRound(id, v).value;
      EndLoopPlays(id, v1, final);
      PlaysOnTwice(v.c, v1.c, EndLoop(id, v1, final).value.c);
    }
  }

  lemma PayPlays(v: View, d: Details, final: u64, signer: Account)
    requires Pay(v, d, final, signer).Ok?
    ensures PlaysOn(v.c, Pay(v, d, final, signer).value.c)
  {
    hide Transfer, ClearPrefix;
  }

  /** A contribution changes nothing but the running round and the books, whatever rounds it closes on the way. */
  lemma ContributePlays(id: RoscaId, v: View, now: u64, signer: Account)
    requires ContributeToRosca(id, v, now, signer).Ok?
    ensures PlaysOn(v.c, ContributeToRosca(id, v, now, signer).value.c)
  {
    hide CatchUp, Pay, PlaysOn;
    CatchUpPlays(id, v, now);
    var k := CatchUp(id, v, now).value;
    if !k.done {
      PayPlays(k.v, v.c.active.value, v.c.finalPayBy.value, signer);
      PlaysOnTwice(v.c, k.v.c, ContributeToRosca(id, v, now, signer).value.c);
    }
  }

  /** Nor does a manual end. */
  lemma ManualEndPlays(id: RoscaId, v: View, now: u64)
    requires ManuallyEnd(id, v, now).Ok?
    ensures PlaysOn(v.c, ManuallyEnd(id, v, now).value.c)
  {
    hide EndLoop;
    EndLoopPlays(id, v, v.c.finalPayBy.value);
    PlaysOnTwice(v.c, EndLoop(id, v, v.c.finalPayBy.value).value.c, ManuallyEnd(id, v, now).value.c);
  }

  /** No call but a start announces one, and a start announces exactly its signer. */
  lemma CallAppends(cfg: Config, now: u64, v: View, signer: Account, call: Call)
    requires CallOn(cfg, now, v, signer, call).Ok?
    ensures var log' := CallOn(cfg, now, v, signer, call).value.c.log;
            if call.Start? then |log'| == |v.c.log| + 1 && v.c.log <= log' && log'[|v.c.log|].RoscaStarted? && log'[|v.c.log|].startedBy == signer
            else Appends(v.c.log, log')
  {
    hide ContributeToRosca, ManuallyEnd, LeaveRosca, Transfer, GenerateRounds, AddTimes, Filled, Shuffle, FirstFree, Reverse, Appends;
    var log := v.c.log;
    match call {
      case Join(_, _) => AppendsOne(log, JoinedRosca(signer));
      case Leave(id) => LeaveAppends(id, v, signer);
      case Start(_, _) =>
      case Contribute(id) => ContributePlays(id, v, now, signer);
      case ManualEnd(id) => ManualEndPlays(id, v, now);
      case Claim(_, _) => AppendsOne(log, SecurityDepositClaimed(signer, v.c.deposits[signer]));
      case Add(_, amount) => AppendsOne(log, SecurityDepositContribution(signer, amount));
    }
  }

  lemma LeaveAppends(id: RoscaId, v: View, signer: Account)
    requires LeaveRosca(id, v, signer).Ok?
    ensures Appends(v.c.log, LeaveRosca(id, v, signer).value.c.log)
  {
    hide Transfer, Appends;
    var log, e := v.c.log, SecurityDepositClaimed(signer, v.c.Deposit(signer));
    AppendsOne(log, e);
    AppendsOne(log, LeftRosca(signer));
    AppendsOne(log + [e], LeftRosca(signer));
    AppendsTwice(log, log + [e], log + [e] + [LeftRosca(signer)]);
  }

  lemma {:induction false} AppendsNoStarter(log: seq<Event>, log': seq<Event>)
    requires Appends(log, log')
    ensures StarterIn(log') == StarterIn(log)
    decreases |log'|
  {
    if |log'| == |log| {
      assert log' == log;
    } else {
      var init := log'[..|log'| - 1];
      assert log <= init;
      AppendsNoStarter(log, init);
    }
  }

  // ---------- who started and who created ----------

  /** The signer of the last accepted start of circle `id` in the run. */
  ghost function Starter(w: World, ms: seq<Move>, id: RoscaId): Option<Account> {
    if ms == [] then None
    else
      var before, m := ms[..|ms| - 1], ms[|ms| - 1];
      if m.Do? && m.call.Start? && m.call.id == id && Step(Run(w, before), m) != Run(w, before) then Some(m.signer)
      else Starter(w, before, id)
  }

  /** The signer of the last accepted creation under `id` in the run. */
  ghost function Creator(w: World, ms: seq<Move>, id: RoscaId): Option<Account> {
    if ms == [] then None
    else
      var before, m := ms[..|ms| - 1], ms[|ms| - 1];
      if m.Create? && Run(w, before).nextId == id && Step(Run(w, before), m) != Run(w, before) then Some(m.signer)
      else Creator(w, before, id)
  }

  lemma StarterStep(w: World, m: Move, id: RoscaId)
    requires Fresh(w, m)
    ensures StarterIn(Step(w, m).At(id).log) ==
              if m.Do? && m.call.Start? && m.call.id == id && Step(w, m) != w then Some(m.signer) else StarterIn(w.At(id).log)
  {
    hide CallOn, CreateRosca, Transfer, StarterIn;
    var w' := Step(w, m);
    if w' == w {
    } else if m.Do? && m.call.id == id {
      var log, log' := w.At(id).log, w'.At(id).log;
      CallAppends(w.cfg, w.now, View(w.At(id), w.ledger), m.signer, m.call);
      if m.call.Start? {
        StarterPush(log, log'[|log|]);
        assert log' == log + [log'[|log|]];
      } else {
        AppendsNoStarter(log, log');
      }
    } else if m.Create? && id == w.nextId {
      CreatedFields(w, m);
    } else {
      assert w'.At(id) == w.At(id);
    }
  }

  lemma CreatedFields(w: World, m: Move)
    requires Fresh(w, m) && m.Create? && Step(w, m) != w
    ensures StarterIn(w.At(w.nextId).log) == StarterIn(Step(w, m).At(w.nextId).log) == None
    ensures var log := Step(w, m).At(w.nextId).log; log != [] && log[0].RoscaCreated? && log[0].creator == m.signer
  {
    hide SortDedup, StarterIn;
    var log := Step(w, m).At(w.nextId).log;
    NobodyStarted();
    StarterPush([], log[0]);
    assert log == [] + [log[0]];
  }

  lemma {:induction false} StarterOverRun(w: World, ms: seq<Move>, id: RoscaId)
    requires FreshRun(w, ms) && w.At(id) == EMPTY
    ensures StarterIn(Run(w, ms).At(id).log) == Starter(w, ms, id)
  {
    hide Step, Fresh, StarterIn;
    if ms == [] {
      NobodyStarted();
    } else {
      StarterOverRun(w, ms[..|ms| - 1], id);
      StarterStep(Run(w, ms[..|ms| - 1]), ms[|ms| - 1], id);
    }
  }

  lemma NobodyStarted()
    ensures StarterIn([]) == None
  {
  }

  /** The announced creator of a circle, if there is one. */
  ghost function CreatorIn(log: seq<Event>): Option<Account> {
    if log != [] && log[0].RoscaCreated? then Some(log[0].creator) else None
  }

  lemma CreatorStep(w: World, m: Move, id: RoscaId)
    requires Sound(w) && Fresh(w, m)
    ensures CreatorIn(Step(w, m).At(id).log) ==
              if m.Create? && w.nextId == id && Step(w, m) != w then Some(m.signer) else CreatorIn(w.At(id).log)
  {
    hide CallOn, CreateRosca, Transfer, Well, GoodStep;
    var w' := Step(w, m);
    if w' == w {
    } else if m.Do? && m.call.id == id {
      CallAppends(w.cfg, w.now, View(w.At(id), w.ledger), m.signer, m.call);
      DoSound(w, m.signer, m.call);
      WellTerms(w.cfg, id, w.At(id), w.ledger);
      assert w'.At(id).log[0] == w.At(id).log[0];
    } else if m.Create? && id == w.nextId {
      CreatedFields(w, m);
    } else {
      assert w'.At(id) == w.At(id);
    }
  }

  lemma {:induction false} CreatorOverRun(w: World, ms: seq<Move>, id: RoscaId)
    requires Sound(w) && FreshRun(w, ms) && w.At(id) == EMPTY
    ensures CreatorIn(Run(w, ms).At(id).log) == Creator(w, ms, id)
  {
    hide Step, Fresh, Well;
    if ms != [] {
      CreatorOverRun(w, ms[..|ms| - 1], id);
      RunSound(w, ms[..|ms| - 1]);
      CreatorStep(Run(w, ms[..|ms| - 1]), ms[|ms| - 1], id);
    }
  }

  // ---------- every run ----------

  /** The fields of an entity that no round changes. */
  ghost predicate FieldsAgree(x: RoscaEntity, c: Circle) {
    && HasTerms(c) && x.details == Terms(c)
    && x.eligible != [] && x.eligible[0] == x.creator && Distinct(x.eligible) && Elems(x.eligible) == c.invited
    && (x.startedBy.Some? <==> c.pending.None?)
  }

  lemma {:induction false} FirstEvent(log: seq<Event>)
    requires Orderly(log) && log != []
    ensures log[0].RoscaCreated? && log[0].eligible != [] && log[0].eligible[0] == log[0].creator && Distinct(log[0].eligible)
  {
    if |log| > 1 {
      FirstEvent(log[..|log| - 1]);
    }
  }

  /** In every reachable state a circle's entity shows the terms agreed on, the signer of its creation as creator and first
      of the eligible, who are exactly the invited, once each, and, from the start on, the signer of the start. */
  lemma EntityFields(w0: World, ms: seq<Move>, w: World, id: RoscaId)
    requires Reached(w0, ms, w) && w.Has(id)
    ensures var x := Project(w.At(id).log).rosca;
            && x.Some? && FieldsAgree(x.value, w.At(id))
            && x.value.startedBy == Starter(w0, ms, id) && Some(x.value.creator) == Creator(w0, ms, id)
  {
    hide Well, Tally, Orderly, Project, Published, FreshRun, Created, StarterIn, Starter, Creator, SavingsOk, Solvent;
    ReachedSound(w0, ms, w);
    GenesisSound(w0);
    var c := w.At(id);
    assert Mirrored(c);
    FieldsProjected(c.log);
    FirstEvent(c.log);
    JoinedIsEligible(c.log);
    StarterOverRun(w0, ms, id);
    CreatorOverRun(w0, ms, id);
    WellTerms(w.cfg, id, c, w.ledger);
    StartedIsPublished(w.cfg, id, c, w.ledger);
  }

  lemma StartedIsPublished(cfg: Config, id: RoscaId, c: Circle, l: Ledger)
    requires Well(cfg, id, c, l)
    ensures Published(c.log) != [] <==> c.pending.None?
  {
    hide Seating, SavingsOk, DefaultsOk, Solvent, BooksOk, Tally, Published, OrderAt, DueAt, Collecting, Open;
  }

  // ---------- the order of lists ----------

  predicate Seats(e: Event, p: Account) {
    (e.RoscaCreated? && e.creator == p) || (e.JoinedRosca? && e.joiner == p)
  }

  /** When p last became a member: the number of events up to then; 0 if never. */
  ghost function SeatedSince(log: seq<Event>, p: Account): nat {
    if log == [] then 0 else if Seats(log[|log| - 1], p) then |log| else SeatedSince(log[..|log| - 1], p)
  }

  lemma SeatedPush(log: seq<Event>, e: Event)
    ensures forall p :: SeatedSince(log + [e], p) == if Seats(e, p) then |log| + 1 else SeatedSince(log, p)
  {
    assert (log + [e])[..|log|] == log;
  }

  lemma {:induction false} SeatedBefore(log: seq<Event>, p: Account)
    ensures SeatedSince(log, p) <= |log|
  {
    if log != [] {
      SeatedBefore(log[..|log| - 1], p);
    }
  }

  /** The list goes from the newest member to the oldest. */
  ghost predicate NewestFirst(log: seq<Event>, active: seq<Account>) {
    forall i, j :: 0 <= i < j < |active| ==> SeatedSince(log, active[i]) > SeatedSince(log, active[j])
  }

  /** The indexer lists the members of every orderly log from the newest to the oldest. */
  lemma {:induction false} ActiveNewestFirst(log: seq<Event>)
    requires Orderly(log) && log != []
    ensures Project(log).rosca.Some? && NewestFirst(log, Project(log).rosca.value.active)
  {
    var init, e := log[..|log| - 1], log[|log| - 1];
    assert log == init + [e];
    ProjectPush(init, e);
    if init != [] {
      ActiveNewestFirst(init);
      ActiveIsPresent(init);
      JoinedIsEligible(init);
      NewestStep(init, e);
    }
  }

  lemma NewestStep(log: seq<Event>, e: Event)
    requires MayFollow(log, e) && log != [] && Project(log).joined.Keys == Eligible(log) && Project(log).rosca.Some?
    requires var active := Project(log).rosca.value.active; Elems(active) == Present(log) && Distinct(active) && NewestFirst(log, active)
    ensures Project(log + [e]).rosca.Some? && NewestFirst(log + [e], Project(log + [e]).rosca.value.active)
  {
    hide Tally, Published, Project, FindRound, Held, Eligible, Present, NewestFirst, Distinct;
    ProjectPush(log, e);
    var active := Project(log).rosca.value.active;
    if e.JoinedRosca? {
      assert e.joiner !in active;
      NewestJoins(log, e, active);
    } else {
      NewestStays(log, e, active);
      if e.LeftRosca? {
        assert e.leaver in Elems(active);
        var i :| 0 <= i < |active| && active[i] == e.leaver;
        NewestLeaves(log, e, active, i);
      }
    }
  }

  lemma NewestStays(log: seq<Event>, e: Event, active: seq<Account>)
    requires NewestFirst(log, active) && !e.RoscaCreated? && !e.JoinedRosca?
    ensures NewestFirst(log + [e], active)
  {
    hide SeatedSince;
    SeatedPush(log, e);
  }

  lemma NewestJoins(log: seq<Event>, e: Event, active: seq<Account>)
    requires NewestFirst(log, active) && e.JoinedRosca? && e.joiner !in active
    ensures NewestFirst(log + [e], [e.joiner] + active)
  {
    hide SeatedSince;
    SeatedPush(log, e);
    forall p ensures SeatedSince(log, p) <= |log| {
      SeatedBefore(log, p);
    }
  }

  lemma NewestLeaves(log: seq<Event>, e: Event, active: seq<Account>, i: nat)
    requires i < |active| && Distinct(active) && NewestFirst(log, active) && e == LeftRosca(active[i])
    ensures NewestFirst(log + [e], Without(active, active[i]))
  {
    hide SeatedSince, Without;
    NewestStays(log, e, active);
    WithoutAt(active, i);
  }

  /** When p first paid into the round of r or was docked for it, and when p first defaulted in it. */
  ghost function FirstPaid(log: seq<Event>, p: Account, r: Account): nat {
    if log == [] then 0
    else
      var init := log[..|log| - 1];
      if Tally(init, Paid(p, r)) + Tally(init, Docked(p, r)) > 0 then FirstPaid(init, p, r) else |init|
  }

  ghost function FirstMissed(log: seq<Event>, p: Account, r: Account): nat {
    if log == [] then 0
    else
      var init := log[..|log| - 1];
      if Tally(init, Missed(p, r)) > 0 then FirstMissed(init, p, r) else |init|
  }

  lemma FirstPush(log: seq<Event>, e: Event, p: Account, r: Account)
    ensures FirstPaid(log + [e], p, r) == if Tally(log, Paid(p, r)) + Tally(log, Docked(p, r)) > 0 then FirstPaid(log, p, r) else |log|
    ensures FirstMissed(log + [e], p, r) == if Tally(log, Missed(p, r)) > 0 then FirstMissed(log, p, r) else |log|
  {
    assert (log + [e])[..|log|] == log;
  }

  lemma {:induction false} FirstBefore(log: seq<Event>, p: Account, r: Account)
    ensures log != [] ==> FirstPaid(log, p, r) < |log| && FirstMissed(log, p, r) < |log|
  {
    if |log| > 1 {
      FirstBefore(log[..|log| - 1], p, r);
    }
  }

  /** The lists of a round entity are in the order of the events. */
  ghost predicate Chronological(log: seq<Event>, x: RoundEntity) {
    && (forall i, j :: 0 <= i < j < |x.actual| ==> FirstPaid(log, x.actual[i], x.recipient) < FirstPaid(log, x.actual[j], x.recipient))
    && (forall i, j :: 0 <= i < j < |x.defaulters| ==>
          FirstMissed(log, x.defaulters[i], x.recipient) < FirstMissed(log, x.defaulters[j], x.recipient))
  }

  lemma LastIsNew(s: seq<Account>, t: seq<Account>)
    requires Distinct(t) && |t| == |s| + 1 && t[..|s|] == s
    ensures t[|s|] !in s
  {
    forall i | 0 <= i < |s| ensures s[i] != t[|s|] {
      assert t[i] == s[i];
    }
  }

  /** After the handler, a round entity is as before, or has one more account at the end of one of its lists. */
  lemma ListStep(log: seq<Event>, e: Event, x: RoundEntity, y: RoundEntity, i: RoundInfo)
    requires RoundAgrees(log, x, i) && RoundAgrees(log + [e], y, i) && Chronological(log, x) && log != []
    requires y == x.(actual := y.actual, defaulters := y.defaulters)
    requires y.actual == x.actual || (|y.actual| == |x.actual| + 1 && y.actual[..|x.actual|] == x.actual)
    requires y.defaulters == x.defaulters || (|y.defaulters| == |x.defaulters| + 1 && y.defaulters[..|x.defaulters|] == x.defaulters)
    ensures Chronological(log + [e], y)
  {
    hide Tally, FirstPaid, FirstMissed;
    var r := x.recipient;
    forall p ensures FirstPaid(log, p, r) < |log| && FirstMissed(log, p, r) < |log| {
      FirstBefore(log, p, r);
    }
    forall p ensures FirstPaid(log + [e], p, r) == (if p in x.actual then FirstPaid(log, p, r) else |log|)
                  && FirstMissed(log + [e], p, r) == (if p in x.defaulters then FirstMissed(log, p, r) else |log|) {
      FirstPush(log, e, p, r);
    }
    forall k, j | 0 <= k < j < |y.actual| ensures FirstPaid(log + [e], y.actual[k], r) < FirstPaid(log + [e], y.actual[j], r) {
      assert y.actual[k] == x.actual[k];
      if j < |x.actual| {
        assert y.actual[j] == x.actual[j];
      } else {
        LastIsNew(x.actual, y.actual);
      }
    }
    forall k, j | 0 <= k < j < |y.defaulters| ensures FirstMissed(log + [e], y.defaulters[k], r) < FirstMissed(log + [e], y.defaulters[j], r) {
      assert y.defaulters[k] == x.defaulters[k];
      if j < |x.defaulters| {
        assert y.defaulters[j] == x.defaulters[j];
      } else {
        LastIsNew(x.defaulters, y.defaulters);
      }
    }
  }

  /** The indexer lists contributors and defaulters of every orderly log in the order in which they first paid or defaulted. */
  lemma {:induction false} ListsChronological(log: seq<Event>, k: nat)
    requires Orderly(log) && 1 <= k <= |Published(log)|
    ensures k in Project(log).rounds && Chronological(log, Project(log).rounds[k])
  {
    var init, e := log[..|log| - 1], log[|log| - 1];
    assert log == init + [e];
    RoundsProjected(log);
    RoundsProjected(init);
    var rs := Published(log);
    if e.RoscaStarted? {
      FreshLists(init, e, k);
    } else {
      Push(init, e);
      ListsChronological(init, k);
      RoundChange(init, e, k);
      assert RoundAgrees(init, Project(init).rounds[k], rs[k - 1]) && RoundAgrees(log, Project(log).rounds[k], rs[k - 1]);
      ListStep(init, e, Project(init).rounds[k], Project(log).rounds[k], rs[k - 1]);
    }
  }

  lemma FreshLists(log: seq<Event>, e: Event, k: nat)
    requires Orderly(log + [e]) && e.RoscaStarted? && 1 <= k <= |Published(log + [e])|
    ensures k in Project(log + [e]).rounds && Chronological(log + [e], Project(log + [e]).rounds[k])
  {
    assert (log + [e])[..|log|] == log;
    hide Tally, FirstPaid, FirstMissed;
    Push(log, e);
    ProjectPush(log, e);
    RoundsProjected(log);
    NoRounds(log, Project(log).rounds);
    hide Project, Orderly, Published;
    FreshRounds(e.rounds);
    assert Project(log + [e]).rounds[k] == FreshRound(e.rounds[k - 1]);
  }

  lemma RoundChange(log: seq<Event>, e: Event, k: nat)
    requires !e.RoscaStarted? && k in Project(log).rounds
    ensures k in Project(log + [e]).rounds
    ensures var x, y := Project(log).rounds[k], Project(log + [e]).rounds[k];
            && y == x.(actual := y.actual, defaulters := y.defaulters)
            && (y.actual == x.actual || (|y.actual| == |x.actual| + 1 && y.actual[..|x.actual|] == x.actual))
            && (y.defaulters == x.defaulters || (|y.defaulters| == |x.defaulters| + 1 && y.defaulters[..|x.defaulters|] == x.defaulters))
  {
    hide Project;
    ProjectPush(log, e);
  }
}

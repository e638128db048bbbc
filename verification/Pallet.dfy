/** The pallet as it runs: storage updated step by step.
    Every extrinsic is proved to be one move of the model in `Runs`. */
module Pallet {
  import opened Prelude
  import opened Storage
  import opened Stores
  import opened Rules
  import opened Deadlines
  import opened Schedule
  import opened Shuffles
  import opened Membership
  import opened Journal
  import opened Circles
  import opened Runs
  import opened Theorems

  // ---------- agreement with the rules ----------

  ghost function Seen(s: Store, id: RoscaId): View {
    View(Slice(s, id), s.ledger)
  }

  /** A step on one circle did what the rules say: the same failure, or the same new circle and ledger. */
  ghost predicate Did(s: Store, s': Store, id: RoscaId, r: Result<()>, spec: Result<View>) {
    && (r.Ok? <==> spec.Ok?)
    && (r.Err? ==> r.error == spec.error)
    && (r.Ok? ==> Wrote(s, s', id, spec.value.c, spec.value.l))
  }

  /** The same for an extrinsic, which is rolled back when it fails. */
  ghost predicate Dispatched(s: Store, s': Store, id: RoscaId, r: Result<()>, spec: Result<View>) {
    Did(s, s', id, r, spec) && (r.Err? ==> s' == s)
  }

  ghost function Keeping(l: Ledger, r: Result<Circle>): Result<View> {
    if r.Ok? then Ok(View(r.value, l)) else Err(r.error)
  }

  /** The world of the model that a store stands for. */
  ghost function WorldOf(cfg: Config, s: Store, now: u64): World {
    World(cfg, s.nextRoscaId, map id: RoscaId | 0 <= id <= U32_MAX :: Slice(s, id), s.ledger, now)
  }

  /** A dispatched call is exactly one move of the model. */
  lemma DispatchIsMove(cfg: Config, now: u64, s: Store, s': Store, signer: Account, call: Call, r: Result<()>)
    requires signer.Member? && Dispatched(s, s', call.id, r, CallOn(cfg, now, Seen(s, call.id), signer, call))
    ensures WorldOf(cfg, s', now) == Step(WorldOf(cfg, s, now), Do(signer, call))
  {
    hide Slice, CallOn;
    var w := WorldOf(cfg, s, now);
    assert w.At(call.id) == Slice(s, call.id);
    if r.Ok? {
      var w' := WorldOf(cfg, s', now);
      assert w'.circles == w.circles[call.id := Slice(s', call.id)];
    }
  }

  lemma SettleSnoc(id: RoscaId, d: Details, claimant: Account, v: View, ps: seq<Account>, i: nat)
    requires i < |ps| && Settle(id, d, claimant, v, ps[..i]).Ok?
    ensures Settle(id, d, claimant, v, ps[..i + 1]) == SettleOne(id, d, claimant, Settle(id, d, claimant, v, ps[..i]).value, ps[i])
  {
    assert ps[..i + 1][..i] == ps[..i];
  }

  lemma {:induction false} SettleStops(id: RoscaId, d: Details, claimant: Account, v: View, ps: seq<Account>, i: nat)
    requires i <= |ps| && Settle(id, d, claimant, v, ps[..i]).Err?
    ensures Settle(id, d, claimant, v, ps) == Settle(id, d, claimant, v, ps[..i])
    decreases |ps|
  {
    if i < |ps| {
      assert ps[..|ps| - 1][..i] == ps[..i];
      SettleStops(id, d, claimant, v, ps[..|ps| - 1], i);
    } else {
      assert ps[..i] == ps;
    }
  }

  /** The circle after a deduction from p's deposit, and after p's default. */
  ghost function AfterDeduction(c: Circle, claimant: Account, p: Account, amount: u32, sufficient: bool): Circle
    requires amount <= c.Deposit(p)
  {
    c.(deposits := c.deposits[p := c.Deposit(p) - amount]).Logged(DepositDeducted(p, claimant, amount, sufficient))
  }

  ghost function AfterDefault(c: Circle, claimant: Account, p: Account): Circle {
    c.(defaults := c.defaults[p := if c.Defaults(p) < U32_MAX then c.Defaults(p) + 1 else c.Defaults(p)])
     .Logged(ParticipantDefaulted(claimant, p))
  }

  lemma SettleOneCases(id: RoscaId, d: Details, claimant: Account, v: View, p: Account)
    ensures p == claimant || p in v.c.contributors ==> SettleOne(id, d, claimant, v, p) == Ok(v)
    ensures p != claimant && p !in v.c.contributors ==>
              var held := v.c.Deposit(p);
              var t := Transfer(v.l, d.asset, Pot(id), claimant, if held < d.amount then held else d.amount);
              && (held == 0 < d.amount ==> SettleOne(id, d, claimant, v, p) == Ok(View(AfterDefault(v.c, claimant, p), v.l)))
              && (held > 0 || d.amount == 0 ==> t.Err? ==> SettleOne(id, d, claimant, v, p) == Err(t.error))
              && (0 < held < d.amount && t.Ok? ==>
                    SettleOne(id, d, claimant, v, p) == Ok(View(AfterDefault(AfterDeduction(v.c, claimant, p, held, false), claimant, p), t.value)))
              && (held >= d.amount && t.Ok? ==>
                    SettleOne(id, d, claimant, v, p) == Ok(View(AfterDeduction(v.c, claimant, p, d.amount, true), t.value)))
  {
    hide Transfer;
  }

  /** The store of a circle's creation, with the counter moved on, is one move of the model. */
  lemma CreationIsMove(cfg: Config, now: u64, s: Store, s1: Store, s': Store, m: Move, r: Result<()>)
    requires m.Create? && m.signer.Member?
    requires Did(s, s1, s.nextRoscaId, r,
                 Keeping(s.ledger, Rules.CreateRosca(cfg, Slice(s, s.nextRoscaId), now, m.signer, m.randomOrder, m.invited, m.threshold,
                                                     m.amount, m.asset, m.frequency, m.startBy, m.position)))
    requires s' == if r.Err? then s else s1.(nextRoscaId := if s.nextRoscaId == U32_MAX then 0 else s.nextRoscaId + 1)
    ensures WorldOf(cfg, s', now) == Step(WorldOf(cfg, s, now), m)
  {
    hide Rules.CreateRosca, Slice;
    var w, id := WorldOf(cfg, s, now), s.nextRoscaId;
    assert w.At(id) == Slice(s, id);
    if r.Ok? {
      OutsideSlices(s1, s'.nextRoscaId, s1.ledger);
      assert s' == s1.(nextRoscaId := s'.nextRoscaId, ledger := s1.ledger);
      assert WorldOf(cfg, s', now).circles == w.circles[id := Slice(s', id)];
    }
  }

  class RoscaPallet {
    const cfg: Config
    var now: u64
    var store: Store

    /** The empty pallet this one started from, and every move since. */
    ghost const start: World
    ghost var history: seq<Move>

    ghost function State(): World
      reads this
    {
      WorldOf(cfg, store, now)
    }

    ghost predicate Valid()
      reads this
    {
      Genesis(start) && State() == Run(start, history)
    }

    constructor (cfg: Config, ledger: Ledger, now: u64)
      ensures this.cfg == cfg && this.now == now && store == EMPTY_STORE.(ledger := ledger)
      ensures Valid() && history == []
    {
      this.cfg, this.now, store := cfg, now, EMPTY_STORE.(ledger := ledger);
      start, history := WorldOf(cfg, EMPTY_STORE.(ledger := ledger), now), [];
    }

    // ---------- dispatch ----------

    /** A call was served: from state `w` with store `s` and history `h`, the pallet made the corresponding move
        of the model, and the result is the model's. */
    ghost predicate Served(w: World, s: Store, h: seq<Move>, signer: Account, call: Call, r: Result<()>)
      reads this
    {
      && Valid() && history == h + [Do(signer, call)] && State() == Step(w, Do(signer, call))
      && (signer.Pot? ==> r == Err(BadOrigin))
      && (signer.Member? ==> Dispatched(s, store, call.id, r, CallOn(cfg, now, Seen(s, call.id), signer, call)))
    }

    ghost method Record(saved: Store, signer: Account, call: Call, r: Result<()>)
      requires Genesis(start) && WorldOf(cfg, saved, now) == Run(start, history)
      requires signer.Pot? ==> store == saved && r == Err(BadOrigin)
      requires signer.Member? ==> Dispatched(saved, store, call.id, r, CallOn(cfg, now, Seen(saved, call.id), signer, call))
      modifies this`history
      ensures Valid() && history == old(history) + [Do(signer, call)]
      ensures State() == Step(WorldOf(cfg, saved, now), Do(signer, call))
    {
      hide WorldOf, CallOn, Genesis;
      if signer.Member? {
        DispatchIsMove(cfg, now, saved, store, signer, call, r);
      } else {
        NobodySigns(WorldOf(cfg, saved, now), signer, call);
      }
      RunPush(start, history, Do(signer, call));
      history := history + [Do(signer, call)];
    }

    method Join(signer: Account, id: RoscaId, position: Option<u32>) returns (r: Result<()>)
      requires Valid()
      modifies this`store, this`history
      ensures Served(old(State()), old(store), old(history), signer, Call.Join(id, position), r)
    {
      hide Slice, Local, WorldOf, Run, Genesis, Step, JoinRosca;
      var saved := store;
      if signer.Pot? {
        r := Err(BadOrigin);
      } else {
        r := JoinBody(signer, id, position);
        if r.Err? { store := saved; }
      }
      Record(saved, signer, Call.Join(id, position), r);
    }

    method Leave(signer: Account, id: RoscaId) returns (r: Result<()>)
      requires Valid()
      modifies this`store, this`history
      ensures Served(old(State()), old(store), old(history), signer, Call.Leave(id), r)
    {
      hide Slice, Local, WorldOf, Run, Genesis, Step, LeaveRosca;
      var saved := store;
      if signer.Pot? {
        r := Err(BadOrigin);
      } else {
        r := LeaveBody(signer, id);
        if r.Err? { store := saved; }
      }
      Record(saved, signer, Call.Leave(id), r);
    }

    method Start(signer: Account, id: RoscaId, byte: nat) returns (r: Result<()>)
      requires Valid()
      modifies this`store, this`history
      ensures Served(old(State()), old(store), old(history), signer, Call.Start(id, byte), r)
    {
      hide Slice, Local, WorldOf, Run, Genesis, Step, StartRosca;
      var saved := store;
      if signer.Pot? {
        r := Err(BadOrigin);
      } else {
        r := StartBody(signer, id, byte);
        if r.Err? { store := saved; }
      }
      Record(saved, signer, Call.Start(id, byte), r);
    }

    method Contribute(signer: Account, id: RoscaId) returns (r: Result<()>)
      requires Valid()
      modifies this`store, this`history
      ensures Served(old(State()), old(store), old(history), signer, Call.Contribute(id), r)
    {
      hide Slice, Local, WorldOf, Run, Genesis, Step, ContributeToRosca;
      var saved := store;
      if signer.Pot? {
        r := Err(BadOrigin);
      } else {
        r := ContributeBody(signer, id);
        if r.Err? { store := saved; }
      }
      Record(saved, signer, Call.Contribute(id), r);
    }

    method ManuallyEnd(signer: Account, id: RoscaId) returns (r: Result<()>)
      requires Valid()
      modifies this`store, this`history
      ensures Served(old(State()), old(store), old(history), signer, Call.ManualEnd(id), r)
    {
      hide Slice, Local, WorldOf, Run, Genesis, Step, Rules.ManuallyEnd;
      var saved := store;
      if signer.Pot? {
        r := Err(BadOrigin);
      } else {
        r := ManuallyEndBody(id);
        if r.Err? { store := saved; }
      }
      Record(saved, signer, Call.ManualEnd(id), r);
    }

    method Claim(signer: Account, id: RoscaId, asset: Asset) returns (r: Result<()>)
      requires Valid()
      modifies this`store, this`history
      ensures Served(old(State()), old(store), old(history), signer, Call.Claim(id, asset), r)
    {
      hide Slice, Local, WorldOf, Run, Genesis, Step, ClaimDeposit;
      var saved := store;
      if signer.Pot? {
        r := Err(BadOrigin);
      } else {
        r := ClaimBody(signer, id, asset);
        if r.Err? { store := saved; }
      }
      Record(saved, signer, Call.Claim(id, asset), r);
    }

    method Add(signer: Account, id: RoscaId, amount: u32) returns (r: Result<()>)
      requires Valid()
      modifies this`store, this`history
      ensures Served(old(State()), old(store), old(history), signer, Call.Add(id, amount), r)
    {
      hide Slice, Local, WorldOf, Run, Genesis, Step, AddDeposit;
      var saved := store;
      if signer.Pot? {
        r := Err(BadOrigin);
      } else {
        r := AddBody(signer, id, amount);
        if r.Err? { store := saved; }
      }
      Record(saved, signer, Call.Add(id, amount), r);
    }

    /** The block's timestamp inherent; the clock never goes back. */
    method Tick(until: u64)
      requires Valid()
      modifies this`now, this`history
      ensures Valid() && history == old(history) + [Elapse(until)] && State() == Step(old(State()), Elapse(until))
    {
      hide Genesis;
      RunPush(start, history, Elapse(until));
      if until >= now { now := until; }
      history := history + [Elapse(until)];
    }

    /** A transfer that is none of the pallet's, as any account holder can make. */
    method Outside(asset: Asset, from: Account, to: Account, sum: nat)
      requires Valid()
      modifies this`store, this`history
      ensures Valid() && history == old(history) + [Move.Outside(asset, from, to, sum)]
      ensures State() == Step(old(State()), Move.Outside(asset, from, to, sum))
    {
      hide Genesis, Transfer, Slice;
      RunPush(start, history, Move.Outside(asset, from, to, sum));
      var t := Transfer(store.ledger, asset, from, to, sum);
      if from.Member? && t.Ok? {
        OutsideSlices(store, store.nextRoscaId, t.value);
        store := store.(nextRoscaId := store.nextRoscaId, ledger := t.value);
      }
      history := history + [Move.Outside(asset, from, to, sum)];
    }

    // ---------- create, join, leave ----------

    method Create(signer: Account, randomOrder: bool, invited: seq<Account>, threshold: u32, amount: u32, asset: Asset,
                  frequency: u64, startBy: u64, position: Option<u32>) returns (r: Result<()>)
      requires Valid()
      modifies this`store, this`history
      ensures Valid() && now == old(now)
      ensures var m := Move.Create(signer, randomOrder, invited, threshold, amount, asset, frequency, startBy, position);
              history == old(history) + [m] && State() == Step(old(State()), m)
      ensures var k := Rules.CreateRosca(cfg, Slice(old(store), old(store).nextRoscaId), now, signer, randomOrder, invited, threshold,
                                         amount, asset, frequency, startBy, position);
              if signer.Pot? then r == Err(BadOrigin) else if k.Err? then r == Err(k.error) else r.Ok?
    {
      hide Slice, Local, WorldOf, Run, Genesis, Step, Rules.CreateRosca;
      ghost var m := Move.Create(signer, randomOrder, invited, threshold, amount, asset, frequency, startBy, position);
      RunPush(start, history, m);
      var saved, id := store, store.nextRoscaId;
      if signer.Pot? {
        r := Err(BadOrigin);
        NobodyCreates(WorldOf(cfg, saved, now), m);
      } else {
        r := CreateBody(id, signer, randomOrder, invited, threshold, amount, asset, frequency, startBy, position);
        ghost var written := store;
        if r.Err? {
          store := saved;
        } else {
          store := store.(nextRoscaId := if id == U32_MAX then 0 else id + 1);
        }
        CreationIsMove(cfg, now, saved, written, store, m, r);
      }
      history := history + [m];
    }

    method CreateBody(id: RoscaId, signer: Account, randomOrder: bool, invited: seq<Account>, threshold: u32, amount: u32, asset: Asset,
                      frequency: u64, startBy: u64, position: Option<u32>) returns (r: Result<()>)
      modifies this`store
      ensures Did(old(store), store, id, r,
                  Keeping(old(store).ledger, Rules.CreateRosca(cfg, Slice(old(store), id), now, signer, randomOrder, invited, threshold,
                                                               amount, asset, frequency, startBy, position)))
    {
      hide Slice, Local, SortDedup, Opened, Rules.CreateRosca;
      ghost var c := Slice(store, id);
      var d := CheckCreate(c, signer, randomOrder, invited, threshold, amount, asset, frequency, startBy, position);
      if d.Err? { return Err(d.error); }
      CreatedIs(cfg, c, now, signer, randomOrder, invited, threshold, amount, asset, frequency, startBy, position);
      var eligible := InviteAll(id, signer, SortDedup(invited));
      OpenCircle(id, signer, if position.Some? then position.value else 0, d.value, eligible);
      return Ok(());
    }

    method CheckCreate(ghost c: Circle, signer: Account, randomOrder: bool, invited: seq<Account>, threshold: u32, amount: u32, asset: Asset,
                       frequency: u64, startBy: u64, position: Option<u32>) returns (r: Result<Details>)
      ensures var k := Rules.CreateRosca(cfg, c, now, signer, randomOrder, invited, threshold, amount, asset, frequency, startBy, position);
              && (r.Err? ==> k == Err(r.error))
              && (r.Ok? ==> k.Ok? && frequency > 0 && |SortDedup(invited)| < cfg.maxParticipants
                            && r.value == Details(randomOrder, |SortDedup(invited)| + 1, threshold, amount, asset, frequency, startBy)
                            && (if position.Some? then position.value else 0) <= |SortDedup(invited)|)
    {
      hide SortDedup;
      if |invited| > cfg.maxInvited { return Err(Undecodable); }
      if amount == 0 { return Err(ContributionAmountMustBePositive); }
      if frequency == 0 { return Err(FrequencyMustBePositive); }
      if cfg.maxInvited >= cfg.maxParticipants { return Err(ArithmeticError); }
      if signer in invited { return Err(CantInviteSelf); }
      Guests(invited, signer);
      var slot := if position.Some? then position.value else 0;
      var n := |SortDedup(invited)| + 1;
      if threshold > n { return Err(ThresholdTooHigh); }
      if slot >= cfg.maxParticipants { return Err(PositionTooLarge); }
      if now >= startBy { return Err(StartByTimestampMustBeFuture); }
      if slot >= n { return Err(Panic); }
      return Ok(Details(randomOrder, n, threshold, amount, asset, frequency, startBy));
    }

    /** Invites the creator and the guests, and lists them for the event; the list holds at most `maxParticipants`. */
    method InviteAll(id: RoscaId, signer: Account, guests: seq<Account>) returns (eligible: seq<Account>)
      requires |guests| < cfg.maxParticipants
      modifies this`store
      ensures eligible == [signer] + guests
      ensures var c := Slice(old(store), id);
              Wrote(old(store), store, id, c.(invited := c.invited + {signer} + (set a | a in guests)), old(store).ledger)
    {
      hide Slice, Local, Invite;
      store := Invite(store, id, signer);
      eligible := [signer];
      ghost var c := Slice(old(store), id);
      for i := 0 to |guests|
        invariant eligible == [signer] + guests[..i]
        invariant Wrote(old(store), store, id, c.(invited := c.invited + {signer} + (set a | a in guests[..i])), old(store).ledger)
      {
        store := Invite(store, id, guests[i]);
        if |eligible| < cfg.maxParticipants {
          eligible := eligible + [guests[i]];
        }
        ghost var before, after := guests[..i], guests[..i + 1];
        assert after == before + [guests[i]];
        assert c.invited + {signer} + (set a | a in after) == c.invited + {signer} + (set a | a in before) + {guests[i]};
      }
      assert guests[..|guests|] == guests;
    }

    method OpenCircle(id: RoscaId, signer: Account, slot: nat, d: Details, eligible: seq<Account>)
      requires slot < d.numberOfParticipants
      modifies this`store
      ensures Wrote(old(store), store, id, Opened(Slice(old(store), id), signer, slot, d, eligible), old(store).ledger)
    {
      hide Slice, Local, SetPendingOrder, SetParticipants, SetParticipantsCount, SetPending, Emit;
      LookupMembers(store, id);
      var slots := seq(d.numberOfParticipants, _ => None)[slot := Some(signer)];
      assert slots == seq(d.numberOfParticipants, i => if i == slot then Some(signer) else None);
      var ps := Get(store.participants, id, map[]);
      store := SetPendingOrder(store, id, slots);
      store := SetParticipants(store, id, ps[signer := slot]);
      store := SetParticipantsCount(store, id, 1);
      store := SetPending(store, id, d);
      store := Emit(store, id, RoscaCreated(d, eligible, signer));
    }

    method JoinBody(signer: Account, id: RoscaId, position: Option<u32>) returns (r: Result<()>)
      modifies this`store
      ensures Did(old(store), store, id, r, Keeping(old(store).ledger, JoinRosca(Slice(old(store), id), now, signer, position)))
    {
      hide Slice, Local, SetPendingOrder, SetParticipants, SetParticipantsCount, Emit, JoinRosca;
      var slot := CheckJoin(signer, id, position);
      if slot.Err? { return Err(slot.error); }
      LookupMembers(store, id);
      var order, ps, count := store.pendingOrder[id], Get(store.participants, id, map[]), store.participantsCount[id];
      store := SetPendingOrder(store, id, order[slot.value := Some(signer)]);
      store := SetParticipants(store, id, ps[signer := slot.value]);
      store := SetParticipantsCount(store, id, count + 1);
      store := Emit(store, id, JoinedRosca(signer));
      return Ok(());
    }

    /** Whether the signer may join, and where. */
    method CheckJoin(signer: Account, id: RoscaId, position: Option<u32>) returns (r: Result<nat>)
      ensures var c := Slice(store, id);
              var k := JoinRosca(c, now, signer, position);
              && (r.Err? ==> k == Err(r.error))
              && (r.Ok? ==> id in store.pendingOrder && r.value < |store.pendingOrder[id]|
                            && id in store.participantsCount && store.participantsCount[id] < U32_MAX
                            && k == Ok(c.(pendingOrder := Some(store.pendingOrder[id][r.value := Some(signer)]),
                                          participants := c.participants[signer := r.value],
                                          participantCount := Some(store.participantsCount[id] + 1),
                                          log := c.log + [JoinedRosca(signer)])))
    {
      hide Slice, PickSlot;
      LookupPhase(store, id);
      LookupMembers(store, id);
      if id in store.activeRoscas { return Err(RoscaAlreadyActive); }
      if signer in Get(store.participants, id, map[]) { return Err(AlreadyJoined); }
      if signer !in Get(store.invitedParticipants, id, {}) { return Err(NotInvited); }
      if id !in store.pendingDetails { return Err(RoscaNotFound); }
      if now >= store.pendingDetails[id].startBy { return Err(StartByTimestampMustBeFuture); }
      if id !in store.pendingOrder { return Err(RoscaNotFound); }
      r := ChooseSlot(store.pendingOrder[id], position);
      if r.Err? { return; }
      if id !in store.participantsCount { return Err(RoscaParticipantCountNotFound); }
      var count := CheckedAdd32(store.participantsCount[id], 1);
      if count.Err? { return Err(count.error); }
    }

    /** The named slot if it exists and is free; without a name, the lowest free one. */
    method ChooseSlot(order: seq<Option<Account>>, position: Option<u32>) returns (r: Result<nat>)
      ensures r == PickSlot(order, position)
      ensures r.Ok? ==> r.value < |order| && order[r.value].None?
      ensures r.Ok? ==> if position.Some? then r.value == position.value else forall i :: 0 <= i < r.value ==> order[i].Some?
      ensures r == Err(PositionTooLarge) <==> position.Some? && position.value >= |order|
      ensures r == Err(PositionAlreadyFilled) <==> position.Some? && position.value < |order| && order[position.value].Some?
      ensures r == Err(AllPositionsFilled) <==> position.None? && forall i :: 0 <= i < |order| ==> order[i].Some?
    {
      if position.Some? {
        if position.value >= |order| { return Err(PositionTooLarge); }
        if order[position.value].Some? { return Err(PositionAlreadyFilled); }
        return Ok(position.value);
      }
      for i := 0 to |order|
        invariant forall j :: 0 <= j < i ==> order[j].Some?
      {
        if order[i].None? { return Ok(i); }
      }
      return Err(AllPositionsFilled);
    }

    method LeaveBody(signer: Account, id: RoscaId) returns (r: Result<()>)
      modifies this`store
      ensures Did(old(store), store, id, r, LeaveRosca(id, Seen(old(store), id), signer))
    {
      hide Slice, Local, Emit, Transfer, Unseat, LeaveRosca, PaidBack;
      var slot := CheckLeave(signer, id);
      if slot.Err? { return Err(slot.error); }
      LookupPhase(store, id);
      LookupMembers(store, id);
      LookupMoney(store, id);
      LeaveSteps(id, Seen(store, id), signer);
      var asset, order, ps, count := store.pendingDetails[id].asset, store.pendingOrder[id], Get(store.participants, id, map[]), store.participantsCount[id];
      var held := Get(Get(store.securityDeposits, id, map[]), signer, 0);
      store := Unseat(store, id, ps - {signer}, order[slot.value := None], count - 1);
      if held > 0 {
        r := PayBack(id, asset, signer, held);
        if r.Err? { return; }
      }
      store := Emit(store, id, LeftRosca(signer));
      return Ok(());
    }

    /** Whether the signer may leave, and which slot becomes free. */
    method CheckLeave(signer: Account, id: RoscaId) returns (r: Result<nat>)
      ensures r.Err? ==> LeaveRosca(id, Seen(store, id), signer) == Err(r.error)
      ensures r.Ok? ==> MayLeave(Slice(store, id), signer) && r.value == Slice(store, id).participants[signer]
                        && id in store.pendingDetails && id in store.pendingOrder && id in store.participantsCount
    {
      hide Slice, Transfer;
      LookupPhase(store, id);
      LookupMembers(store, id);
      if id in store.activeRoscas { return Err(RoscaAlreadyActive); }
      var ps := Get(store.participants, id, map[]);
      if signer !in ps { return Err(NotAParticipant); }
      if id !in store.pendingDetails { return Err(RoscaNotFound); }
      if id !in store.pendingOrder { return Err(RoscaParticipantsNotFound); }
      if ps[signer] >= |store.pendingOrder[id]| { return Err(Panic); }
      if id !in store.participantsCount { return Err(RoscaParticipantCountNotFound); }
      if store.participantsCount[id] == 0 { return Err(ArithmeticUnderflow); }
      return Ok(ps[signer]);
    }

    /** Returns a deposit and forgets it. */
    method PayBack(id: RoscaId, asset: Asset, p: Account, held: u32) returns (r: Result<()>)
      modifies this`store
      ensures Did(old(store), store, id, r, PaidBack(id, Seen(old(store), id), asset, p, held))
    {
      hide Slice, Local, Transfer, Dock;
      LookupMoney(store, id);
      var deposits := Get(store.securityDeposits, id, map[]);
      r := Pay(id, asset, Pot(id), p, held);
      if r.Err? { return; }
      store := Dock(store, id, deposits - {p}, SecurityDepositClaimed(p, held));
    }

    // ---------- start ----------

    method StartBody(signer: Account, id: RoscaId, byte: nat) returns (r: Result<()>)
      modifies this`store
      ensures Did(old(store), store, id, r, Keeping(old(store).ledger, StartRosca(cfg, Slice(old(store), id), now, signer, byte)))
    {
      hide Slice, Local, Shuffle, Filled, Reverse, Rules.GenerateRounds, AddTimes, Always;
      LookupPhase(store, id);
      LookupMembers(store, id);
      if id in store.activeRoscas { return Err(RoscaAlreadyActive); }
      if signer !in Get(store.participants, id, map[]) { return Err(NotAParticipant); }
      if id !in store.pendingDetails { return Err(RoscaNotFound); }
      var d := store.pendingDetails[id];
      if id !in store.pendingOrder { return Err(RoscaParticipantsNotFound); }
      if now >= d.startBy { return Err(StartByTimestampMustBeFuture); }
      if id !in store.participantsCount { return Err(RoscaParticipantCountNotFound); }
      var count := store.participantsCount[id];
      if count < d.threshold { return Err(ParticipantThresholdNotMet); }
      var order := Filled(Reverse(store.pendingOrder[id]));
      if |order| > cfg.maxParticipants { return Err(TooManyProposedParticipants); }
      if d.randomOrder {
        order := ShuffleParticipants(order, byte);
      }
      var rounds := GenerateRounds(order, now, d.frequency);
      if rounds.Err? { return Err(rounds.error); }
      if |order| == 0 { return Err(Panic); }
      var next := CheckedAdd64(now, d.frequency);
      if next.Err? { return Err(next.error); }
      var final := LastDeadline(next.value, d.frequency, count);
      if final.Err? { return Err(final.error); }
      var first := order[|order| - 1];
      Activate(id, d, first, RotateRight(order), next.value, final.value, RoscaStarted(signer, rounds.value, first, next.value));
      return Ok(());
    }

    method Activate(id: RoscaId, d: Details, first: Account, order: seq<Account>, next: u64, final: u64, e: Event)
      modifies this`store
      ensures var c := Slice(old(store), id);
              Wrote(old(store), store, id,
                    c.(claimant := Some(first), order := Some(order), nextPayBy := Some(next), finalPayBy := Some(final),
                       active := Some(d), pending := None, log := c.log + [e]), old(store).ledger)
    {
      hide Slice, Local, SetTurn, SetNextPayBy, SetFinalPayBy, SetActive, RemovePending, Emit;
      store := SetTurn(store, id, first, order);
      store := SetNextPayBy(store, id, next);
      store := SetFinalPayBy(store, id, final);
      store := SetActive(store, id, d);
      store := RemovePending(store, id);
      store := Emit(store, id, e);
    }

    /** The shuffle: draws indices without replacement, then reads the participants in that order. */
    method ShuffleParticipants(participants: seq<Account>, byte: nat) returns (shuffled: seq<Account>)
      ensures shuffled == Shuffle(participants, Always(byte))
      ensures DrawnFrom(participants, Always(byte), shuffled)
    {
      hide Draw, DrawnFrom;
      ShuffleDraws(participants, Always(byte));
      var picks := DrawIndices(|participants|, byte);
      shuffled := participants;
      for i := 0 to |picks|
        invariant |shuffled| == |participants|
        invariant forall j :: 0 <= j < i ==> shuffled[j] == participants[picks[j]]
      {
        shuffled := shuffled[i := participants[picks[i]]];
      }
    }

    method DrawIndices(n: nat, byte: nat) returns (picks: seq<nat>)
      ensures picks == Draw(seq(n, i => i), Always(byte), 0)
    {
      hide Draw, Always;
      var available: seq<nat> := seq(n, i => i);
      ghost var all := Draw(available, Always(byte), 0);
      picks := [];
      while available != []
        invariant all == picks + Draw(available, Always(byte), |picks|)
        decreases |available|
      {
        DrawOne(available, byte, |picks|);
        var k := byte % |available|;
        picks := picks + [available[k]];
        available := available[..k] + available[k + 1..];
      }
      NoDraw(byte, |picks|);
    }

    /** The schedule, from the end of the order backwards. */
    method GenerateRounds(participants: seq<Account>, current: u64, frequency: pos64) returns (r: Result<seq<RoundInfo>>)
      ensures r == Rules.GenerateRounds(cfg, participants, current, frequency)
    {
      hide Without;
      var rounds: seq<RoundInfo> := [];
      var cutoff := CheckedAdd64(current, frequency);
      for i := 0 to |participants|
        invariant |rounds| == i
        invariant RoundsUpTo(cfg, participants, current, frequency, i)
               == if cutoff.Err? then Err(cutoff.error) else Ok(Partial(rounds, cutoff.value))
      {
        if cutoff.Err? {
          RoundsStop(cfg, participants, current, frequency, i, |participants|);
          return Err(cutoff.error);
        }
        RoundsUnfold(cfg, participants, current, frequency, i);
        var recipient := participants[|participants| - 1 - i];
        var others := Without(participants, recipient);
        if |others| > cfg.maxInvited {
          RoundsStop(cfg, participants, current, frequency, i + 1, |participants|);
          return Err(TooManyProposedParticipants);
        }
        if |rounds| >= cfg.maxParticipants {
          RoundsStop(cfg, participants, current, frequency, i + 1, |participants|);
          return Err(TooManyRounds);
        }
        rounds := rounds + [RoundInfo(i + 1, cutoff.value, others, recipient)];
        cutoff := CheckedAdd64(cutoff.value, frequency);
      }
      if cutoff.Err? { return Err(cutoff.error); }
      return Ok(rounds);
    }

    method LastDeadline(first: u64, frequency: pos64, count: u32) returns (r: Result<u64>)
      ensures r == AddTimes(first, frequency, if count == 0 then 0 else count - 1)
    {
      var t := first;
      for i := 1 to (if count == 0 then 1 else count)
        invariant AddTimes(first, frequency, i - 1) == Ok(t)
      {
        r := CheckedAdd64(t, frequency);
        if r.Err? {
          AddTimesStop(first, frequency, i, count - 1);
          return;
        }
        t := r.value;
      }
      return Ok(t);
    }

    // ---------- deposits ----------

    method ClaimBody(signer: Account, id: RoscaId, asset: Asset) returns (r: Result<()>)
      modifies this`store
      ensures Did(old(store), store, id, r, ClaimDeposit(id, Seen(old(store), id), now, signer, asset))
    {
      hide Slice, Local, Transfer;
      LookupPhase(store, id);
      LookupRota(store, id);
      LookupMoney(store, id);
      if id !in store.finalPayBy { return Err(FinalPayByTimestampNotFound); }
      if now <= store.finalPayBy[id] { return Err(FinalPayByTimestampMustBePast); }
      if id !in store.pendingDetails && id !in store.completedRoscas { return Err(RoscaStillActive); }
      var deposits := Get(store.securityDeposits, id, map[]);
      if signer !in deposits { return Err(SecurityDepositNotFound); }
      if deposits[signer] == 0 { return Err(SecurityDepositIsZero); }
      r := PayBack(id, asset, signer, deposits[signer]);
    }

    method AddBody(signer: Account, id: RoscaId, amount: u32) returns (r: Result<()>)
      modifies this`store
      ensures Did(old(store), store, id, r, AddDeposit(id, Seen(old(store), id), signer, amount))
    {
      hide Slice, Local, Transfer, Dock;
      LookupPhase(store, id);
      LookupMembers(store, id);
      if signer !in Get(store.participants, id, map[]) { return Err(NotAParticipant); }
      if id in store.completedRoscas { return Err(RoscaAlreadyCompleted); }
      if id !in store.activeRoscas && id !in store.pendingDetails { return Err(RoscaNotFound); }
      var rosca := if id in store.activeRoscas then store.activeRoscas[id] else store.pendingDetails[id];
      r := Pay(id, rosca.asset, signer, Pot(id), amount);
      if r.Err? { return; }
      LookupMoney(store, id);
      var deposits := Get(store.securityDeposits, id, map[]);
      var total := CheckedAdd32(Get(deposits, signer, 0), amount);
      if total.Err? { return Err(total.error); }
      store := Dock(store, id, deposits[signer := total.value], SecurityDepositContribution(signer, amount));
      return Ok(());
    }

    // ---------- rounds ----------

    method Pay(id: RoscaId, asset: Asset, from: Account, to: Account, amount: nat) returns (r: Result<()>)
      modifies this`store
      ensures r.Ok? <==> Transfer(old(store).ledger, asset, from, to, amount).Ok?
      ensures r.Ok? ==> Wrote(old(store), store, id, Slice(old(store), id), Transfer(old(store).ledger, asset, from, to, amount).value)
      ensures r.Err? ==> r.error == Transfer(old(store).ledger, asset, from, to, amount).error && store == old(store)
    {
      hide Slice, Local, SetLedger;
      var l := store.ledger;
      var available := l.Balance(asset, from);
      if available < amount {
        return Err(FundsUnavailable);
      }
      l := l.Put(asset, from, available - amount);
      l := l.Put(asset, to, l.Balance(asset, to) + amount);
      store := SetLedger(store, id, l);
      return Ok(());
    }

    /** Processes the missed contributions of the current round. */
    method ProcessDefaulters(id: RoscaId) returns (r: Result<()>)
      modifies this`store
      ensures Did(old(store), store, id, r, Rules.ProcessDefaulters(id, Seen(old(store), id)))
    {
      hide Slice, Local, SettleOne;
      LookupPhase(store, id);
      LookupRota(store, id);
      if id !in store.activeRoscas { return Err(RoscaNotActive); }
      var rosca := store.activeRoscas[id];
      if id !in store.eligibleClaimant { return Err(NoEligibleClaimant); }
      var claimant := store.eligibleClaimant[id];
      if id !in store.activeOrder { return Err(RoscaParticipantsNotFound); }
      var order := store.activeOrder[id];
      ghost var v0 := Seen(store, id);
      LocalSelf(store, id);
      for i := 0 to |order|
        invariant Wrote(old(store), store, id, Slice(store, id), store.ledger)
        invariant Settle(id, rosca, claimant, v0, order[..i]) == Ok(Seen(store, id))
      {
        var one := SettleParticipant(id, rosca, claimant, order[i]);
        SettleSnoc(id, rosca, claimant, v0, order, i);
        if one.Err? {
          SettleStops(id, rosca, claimant, v0, order, i + 1);
          return one;
        }
      }
      assert order[..|order|] == order;
      return Ok(());
    }

    /** One participant's turn in the loop above. */
    method SettleParticipant(id: RoscaId, rosca: Details, claimant: Account, p: Account) returns (r: Result<()>)
      modifies this`store
      ensures Did(old(store), store, id, r, SettleOne(id, rosca, claimant, Seen(old(store), id), p))
    {
      hide Slice, Local, Transfer, SettleOne, AfterDeduction, AfterDefault;
      LocalSelf(store, id);
      LookupRound(store, id);
      LookupMoney(store, id);
      SettleOneCases(id, rosca, claimant, Seen(store, id), p);
      if p == claimant || p in Get(store.currentContributors, id, {}) {
        return Ok(());
      }
      var held := Get(Get(store.securityDeposits, id, map[]), p, 0);
      if held < rosca.amount {
        if held > 0 {
          r := Deduct(id, rosca.asset, claimant, p, held, false);
          if r.Err? { return; }
        }
        RecordDefault(id, claimant, p);
      } else {
        r := Deduct(id, rosca.asset, claimant, p, rosca.amount, true);
        return;
      }
      return Ok(());
    }

    /** Pays `amount` out of p's deposit to the claimant. */
    method Deduct(id: RoscaId, asset: Asset, claimant: Account, p: Account, amount: u32, sufficient: bool) returns (r: Result<()>)
      requires amount <= Slice(store, id).Deposit(p)
      modifies this`store
      ensures var c, t := Slice(old(store), id), Transfer(old(store).ledger, asset, Pot(id), claimant, amount);
              Did(old(store), store, id, r,
                  if t.Err? then Err(t.error)
                  else Ok(View(AfterDeduction(c, claimant, p, amount, sufficient), t.value)))
    {
      hide Slice, Local, Transfer, AfterDeduction;
      r := Pay(id, asset, Pot(id), claimant, amount);
      if r.Ok? {
        RecordDeduction(id, claimant, p, amount, sufficient);
      }
    }

    method RecordDeduction(id: RoscaId, claimant: Account, p: Account, amount: u32, sufficient: bool)
      requires amount <= Slice(store, id).Deposit(p)
      modifies this`store
      ensures Wrote(old(store), store, id, AfterDeduction(Slice(old(store), id), claimant, p, amount, sufficient), old(store).ledger)
    {
      hide Slice, Local, Dock;
      LookupMoney(store, id);
      var deposits := Get(store.securityDeposits, id, map[]);
      store := Dock(store, id, deposits[p := Get(deposits, p, 0) - amount], DepositDeducted(p, claimant, amount, sufficient));
    }

    method RecordDefault(id: RoscaId, claimant: Account, p: Account)
      modifies this`store
      ensures Wrote(old(store), store, id, AfterDefault(Slice(old(store), id), claimant, p), old(store).ledger)
    {
      hide Slice, Local, SetDefaults, Emit;
      LookupMoney(store, id);
      var counts := Get(store.defaultCount, id, map[]);
      var count := Get(counts, p, 0);
      store := SetDefaults(store, id, counts[p := if count < U32_MAX then count + 1 else count]);
      store := Emit(store, id, ParticipantDefaulted(claimant, p));
    }

    /** Moves on to the next round. */
    method AdvanceRound(id: RoscaId) returns (r: Result<()>)
      modifies this`store
      ensures Did(old(store), store, id, r, Keeping(old(store).ledger, Rules.AdvanceRound(Slice(old(store), id))))
    {
      hide Slice, Local, SetNextPayBy, SetTurn, ClearRound, Emit, ClearPrefix;
      LookupPhase(store, id);
      LookupRota(store, id);
      if id !in store.activeRoscas { return Err(RoscaNotActive); }
      var rosca := store.activeRoscas[id];
      if id !in store.nextPayBy { return Err(NoNextPayByTimestamp); }
      var next := CheckedAdd64(store.nextPayBy[id], rosca.frequency);
      if next.Err? { return Err(next.error); }
      store := SetNextPayBy(store, id, next.value);
      LookupRota(store, id);
      if id !in store.activeOrder { return Err(RoscaParticipantsNotFound); }
      var order := store.activeOrder[id];
      if |order| == 0 { return Err(Panic); }
      var claimant := order[|order| - 1];
      store := SetTurn(store, id, claimant, RotateRight(order));
      store := ClearRound(store, id, |order| - 1);
      store := Emit(store, id, NewRoundStarted(claimant, next.value));
      return Ok(());
    }

    method MarkComplete(id: RoscaId)
      modifies this`store
      ensures Wrote(old(store), store, id, Complete(Slice(old(store), id)), old(store).ledger)
    {
      hide Slice, Local, SetCompleted, RemoveActive, Emit;
      store := SetCompleted(store, id);
      store := RemoveActive(store, id);
      store := Emit(store, id, RoscaComplete);
    }

    /** Completes the circle if its next deadline lies past the final one. */
    method CheckAndComplete(id: RoscaId) returns (r: Result<bool>)
      modifies this`store
      ensures var k := Rules.CheckAndComplete(Slice(old(store), id));
              && (r.Ok? <==> k.Ok?) && (r.Err? ==> r.error == k.error)
              && (r.Ok? ==> r.value == k.value.done && Wrote(old(store), store, id, k.value.c, old(store).ledger))
    {
      hide Slice, Local, Complete;
      LocalSelf(store, id);
      LookupPhase(store, id);
      LookupRota(store, id);
      if id !in store.activeRoscas { return Err(RoscaNotActive); }
      if id !in store.finalPayBy { return Err(FinalPayByTimestampNotFound); }
      if id !in store.nextPayBy { return Err(NoNextPayByTimestamp); }
      if store.nextPayBy[id] > store.finalPayBy[id] {
        MarkComplete(id);
        return Ok(true);
      }
      return Ok(false);
    }

    /** The payment step of a contribution, and the inline end of the round when it was the last one due. */
    method RecordContribution(id: RoscaId, signer: Account, rosca: Details, final: u64) returns (r: Result<()>)
      requires id in store.eligibleClaimant && id in store.nextPayBy && id in store.activeOrder
      modifies this`store
      ensures Did(old(store), store, id, r, Rules.Pay(Seen(old(store), id), rosca, final, signer))
    {
      hide Slice, Local, Transfer, NoteContribution, FinishRound;
      LookupRota(store, id);
      LookupRound(store, id);
      var claimant, due, order := store.eligibleClaimant[id], store.nextPayBy[id], store.activeOrder[id];
      r := Pay(id, rosca.asset, signer, claimant, rosca.amount);
      if r.Err? { return; }
      LookupRound(store, id);
      var count := CheckedAdd32(Get(store.contributionCount, id, 0), 1);
      if count.Err? { return Err(count.error); }
      store := NoteContribution(store, id, signer, count.value, ContributionMade(signer, claimant, rosca.amount));
      if |order| == 0 { return Err(Panic); }
      if count.value == |order| - 1 {
        r := EndRound(id, rosca, order, due, final);
        return;
      }
      return Ok(());
    }

    /** The last expected contribution is in: the next round starts, or the circle is complete. */
    method EndRound(id: RoscaId, rosca: Details, order: seq<Account>, due: u64, final: u64) returns (r: Result<()>)
      requires |order| > 0
      modifies this`store
      ensures Did(old(store), store, id, r, Keeping(old(store).ledger, FinishRound(Slice(old(store), id), rosca, order, due, final)))
    {
      hide Slice, Local, SetNextPayBy, SetTurn, ClearRound, Emit, Complete, ClearPrefix;
      var next := CheckedAdd64(due, rosca.frequency);
      if next.Err? { return Err(next.error); }
      if next.value > final {
        MarkComplete(id);
        return Ok(());
      }
      var claimant := order[|order| - 1];
      store := SetNextPayBy(store, id, next.value);
      store := SetTurn(store, id, claimant, RotateRight(order));
      store := ClearRound(store, id, |order| - 1);
      store := Emit(store, id, NewRoundStarted(claimant, next.value));
      return Ok(());
    }

    method CloseRound(id: RoscaId) returns (r: Result<()>)
      modifies this`store
      ensures Did(old(store), store, id, r, Rules.CloseRound(id, Seen(old(store), id)))
    {
      hide Slice, Local, Settle, Rules.ProcessDefaulters, Rules.AdvanceRound;
      r := ProcessDefaulters(id);
      if r.Err? { return; }
      r := AdvanceRound(id);
    }

    method ContributeBody(signer: Account, id: RoscaId) returns (r: Result<()>)
      modifies this`store
      ensures Did(old(store), store, id, r, ContributeToRosca(id, Seen(old(store), id), now, signer))
    {
      hide Slice, Local, Rules.CloseRound, Rules.CheckAndComplete, Rules.Pay;
      LookupPhase(store, id);
      LookupMembers(store, id);
      LookupRota(store, id);
      LookupRound(store, id);
      if signer !in Get(store.participants, id, map[]) { return Err(NotAParticipant); }
      if id in store.completedRoscas { return Err(RoscaAlreadyCompleted); }
      if id !in store.activeRoscas { return Err(RoscaNotActive); }
      var rosca := store.activeRoscas[id];
      if id !in store.eligibleClaimant { return Err(NoEligibleClaimant); }
      if store.eligibleClaimant[id] == signer { return Err(CantContributeToSelf); }
      if signer in Get(store.currentContributors, id, {}) { return Err(AlreadyContributed); }
      if id !in store.finalPayBy { return Err(FinalPayByTimestampNotFound); }
      var final := store.finalPayBy[id];
      if id !in store.nextPayBy { return Err(NoNextPayByTimestamp); }
      if id !in store.activeOrder { return Err(RoscaParticipantsNotFound); }
      ghost var v0 := Seen(store, id);
      var done: bool;
      r, done := CatchUpLoop(id);
      if r.Err? || done { return; }
      StillThere(id, v0, now);
      LookupRota(store, id);
      r := RecordContribution(id, signer, rosca, final);
    }

    /** Closes every round whose deadline has passed, until the circle is complete or up to date. */
    method CatchUpLoop(id: RoscaId) returns (r: Result<()>, done: bool)
      requires id in store.nextPayBy
      modifies this`store
      ensures var u := CatchUp(id, Seen(old(store), id), now);
              && (r.Ok? <==> u.Ok?) && (r.Err? ==> r.error == u.error)
              && (r.Ok? ==> done == u.value.done && Wrote(old(store), store, id, u.value.v.c, u.value.v.l))
    {
      hide Slice, Local, Settle, Rules.CheckAndComplete;
      LocalSelf(store, id);
      LookupRota(store, id);
      ghost var v0 := Seen(store, id);
      var next := store.nextPayBy[id];
      while now >= next
        invariant Wrote(old(store), store, id, Slice(store, id), store.ledger)
        invariant Slice(store, id).nextPayBy == Some(next)
        invariant CatchUp(id, v0, now) == CatchUp(id, Seen(store, id), now)
        decreases now - next
      {
        ghost var v := Seen(store, id);
        r := CloseRound(id);
        if r.Err? { return r, false; }
        ghost var c1 := Slice(store, id);
        var check := CheckAndComplete(id);
        if check.Err? { return Err(check.error), false; }
        if check.value { return Ok(()), true; }
        CheckKeeps(c1);
        LookupRota(store, id);
        next := store.nextPayBy[id];
      }
      return Ok(()), false;
    }

    method ManuallyEndBody(id: RoscaId) returns (r: Result<()>)
      modifies this`store
      ensures Did(old(store), store, id, r, Rules.ManuallyEnd(id, Seen(old(store), id), now))
    {
      hide Slice, Local, Rules.CloseRound, Complete;
      LookupPhase(store, id);
      LookupRota(store, id);
      LocalSelf(store, id);
      if id !in store.activeRoscas { return Err(RoscaNotActive); }
      var rosca := store.activeRoscas[id];
      if id !in store.finalPayBy { return Err(FinalPayByTimestampNotFound); }
      var final := store.finalPayBy[id];
      if now <= final { return Err(FinalPayByTimestampMustBePast); }
      ghost var v0 := Seen(store, id);
      while id in store.nextPayBy && store.nextPayBy[id] <= final
        invariant Wrote(old(store), store, id, Slice(store, id), store.ledger)
        invariant EndLoop(id, v0, final) == EndLoop(id, Seen(store, id), final)
        invariant Slice(store, id).nextPayBy == Find(store.nextPayBy, id)
        decreases if id in store.nextPayBy && store.nextPayBy[id] <= final then final - store.nextPayBy[id] + 1 else 0
      {
        r := CloseRound(id);
        if r.Err? { return; }
        LookupRota(store, id);
      }
      if id !in store.nextPayBy { return Err(NoNextPayByTimestamp); }
      var last := CheckedAdd64(final, rosca.frequency);
      if last.Err? { return Err(last.error); }
      if store.nextPayBy[id] != last.value { return Err(ArithmeticError); }
      MarkComplete(id);
      return Ok(());
    }
  }

  lemma NobodySigns(w: World, signer: Account, call: Call)
    requires signer.Pot?
    ensures Step(w, Do(signer, call)) == w
  {
    hide CallOn;
  }

  lemma NobodyCreates(w: World, m: Move)
    requires m.Create? && m.signer.Pot?
    ensures Step(w, m) == w
  {
    hide Rules.CreateRosca;
  }

  /** The circle after its creation, apart from the invitations. */
  ghost function Opened(c: Circle, signer: Account, slot: nat, d: Details, eligible: seq<Account>): Circle {
    c.(pendingOrder := Some(seq(d.numberOfParticipants, i => if i == slot then Some(signer) else None)),
       participants := c.participants[signer := slot],
       participantCount := Some(1),
       pending := Some(d),
       log := c.log + [RoscaCreated(d, eligible, signer)])
  }

  lemma CreatedIs(cfg: Config, c: Circle, now: u64, signer: Account, randomOrder: bool, invited: seq<Account>, threshold: u32, amount: u32,
                  asset: Asset, frequency: u64, startBy: u64, position: Option<u32>)
    requires Rules.CreateRosca(cfg, c, now, signer, randomOrder, invited, threshold, amount, asset, frequency, startBy, position).Ok?
    ensures var guests := SortDedup(invited);
            var d := Details(randomOrder, |guests| + 1, threshold, amount, asset, frequency, startBy);
            Rules.CreateRosca(cfg, c, now, signer, randomOrder, invited, threshold, amount, asset, frequency, startBy, position)
            == Ok(Opened(c.(invited := c.invited + {signer} + (set a | a in guests)), signer,
                         if position.Some? then position.value else 0, d, [signer] + guests))
  {
    hide SortDedup;
  }

  ghost function PaidBack(id: RoscaId, v: View, asset: Asset, p: Account, held: u32): Result<View> {
    var l1 :- Transfer(v.l, asset, Pot(id), p, held);
    Ok(View(v.c.(deposits := v.c.deposits - {p}).Logged(SecurityDepositClaimed(p, held)), l1))
  }

  lemma RoundsUnfold(cfg: Config, order: seq<Account>, t0: u64, f: pos64, k: nat)
    requires k < |order| && RoundsUpTo(cfg, order, t0, f, k).Ok?
    ensures var p, recipient := RoundsUpTo(cfg, order, t0, f, k).value, order[|order| - 1 - k];
            var others := Without(order, recipient);
            RoundsUpTo(cfg, order, t0, f, k + 1)
            == if |others| > cfg.maxInvited then Err(TooManyProposedParticipants)
               else if k >= cfg.maxParticipants then Err(TooManyRounds)
               else
                 var next := CheckedAdd64(p.cutoff, f);
                 if next.Err? then Err(next.error) else Ok(Partial(p.rounds + [RoundInfo(k + 1, p.cutoff, others, recipient)], next.value))
  {
    hide Without;
  }

  ghost predicate MayLeave(c: Circle, signer: Account) {
    && c.active.None? && signer in c.participants && c.pending.Some? && c.pendingOrder.Some?
    && c.participants[signer] < |c.pendingOrder.value| && c.participantCount.Some? && c.participantCount.value > 0
  }

  lemma LeaveSteps(id: RoscaId, v: View, signer: Account)
    requires MayLeave(v.c, signer)
    ensures var c1 := v.c.(participants := v.c.participants - {signer},
                           pendingOrder := Some(v.c.pendingOrder.value[v.c.participants[signer] := None]),
                           participantCount := Some(v.c.participantCount.value - 1));
            var held := v.c.Deposit(signer);
            var paid := PaidBack(id, View(c1, v.l), v.c.pending.value.asset, signer, held);
            LeaveRosca(id, v, signer)
            == if held == 0 then Ok(View(c1.Logged(LeftRosca(signer)), v.l))
               else if paid.Err? then paid else Ok(View(paid.value.c.Logged(LeftRosca(signer)), paid.value.l))
  {
    hide Transfer;
  }

  lemma NoDraw(byte: nat, i: nat)
    ensures Draw([], Always(byte), i) == []
  {
  }

  lemma {:induction false} RoundsStop(cfg: Config, order: seq<Account>, t0: u64, f: pos64, k: nat, n: nat)
    requires k <= n <= |order| && RoundsUpTo(cfg, order, t0, f, k).Err?
    ensures RoundsUpTo(cfg, order, t0, f, n) == RoundsUpTo(cfg, order, t0, f, k)
  {
    if k < n {
      RoundsStop(cfg, order, t0, f, k, n - 1);
    }
  }

  lemma {:induction false} AddTimesStop(t: u64, f: pos64, k: nat, n: nat)
    requires k <= n && AddTimes(t, f, k).Err?
    ensures AddTimes(t, f, n) == AddTimes(t, f, k)
  {
    if k < n {
      AddTimesStop(t, f, k, n - 1);
    }
  }

  /** The items that the payment step reads are still there after catching up. */
  lemma StillThere(id: RoscaId, v: View, now: u64)
    requires v.c.claimant.Some? && v.c.order.Some? && CatchUp(id, v, now).Ok?
    ensures CatchUp(id, v, now).value.v.c.claimant.Some? && CatchUp(id, v, now).value.v.c.order.Some?
    ensures !CatchUp(id, v, now).value.done ==> CatchUp(id, v, now).value.v.c.nextPayBy.Some?
    decreases if v.c.nextPayBy.Some? && v.c.nextPayBy.value <= now then now - v.c.nextPayBy.value + 1 else 0
  {
    hide Settle;
    if v.c.nextPayBy.Some? && v.c.nextPayBy.value <= now {
      var v1 := CloseRound(id, v).value;
      CheckKeeps(v1.c);
      if !CheckAndComplete(v1.c).value.done {
        StillThere(id, View(CheckAndComplete(v1.c).value.c, v1.l), now);
      }
    }
  }

  // ---------- what every pallet in use satisfies ----------

  /** Every theorem about runs applies to the stored state; for one, each circle's account covers its stored deposits. */
  lemma StoreIsSolvent(p: RoscaPallet, id: RoscaId)
    requires p.Valid() && Created(p.start, p.history) <= IDS && p.State().Has(id)
    ensures Reached(p.start, p.history, p.State())
    ensures If(id in p.store.pendingDetails) + If(id in p.store.activeRoscas) + If(id in p.store.completedRoscas) == 1
    ensures HasTerms(Slice(p.store, id))
    ensures p.store.ledger.Balance(Terms(Slice(p.store, id)).asset, Pot(id)) >= Sum(Get(p.store.securityDeposits, id, map[]))
  {
    hide Slice, Sum, Run, Ledger.Balance, Genesis;
    OnePhase(p.start, p.history, p.State(), id);
    AlwaysSolvent(p.start, p.history, p.State(), id);
    assert p.State().At(id) == Slice(p.store, id);
    LookupPhase(p.store, id);
    LookupMoney(p.store, id);
  }
}

/** What each extrinsic does to one circle's storage and to the ledger, as functions.
    An `Err` stands for a dispatch that is rolled back. */
module Rules {
  import opened Prelude
  import opened Storage

  datatype View = View(c: Circle, l: Ledger)

  // ---------- create, join, leave ----------

  /** Inserts `a` into a strictly increasing list, once. */
  function Insert(a: Account, s: seq<Account>): (r: seq<Account>)
    ensures Elems(r) == Elems(s) + {a}
  {
    if s == [] then [a]
    else if a == s[0] then s
    else if Below(a, s[0]) then [a] + s
    else
      var t := Insert(a, s[1..]);
      assert Elems(s) == Elems(s[1..]) + {s[0]};
      assert Elems([s[0]] + t) == Elems(t) + {s[0]};
      [s[0]] + t
  }

  /** `sort` followed by `dedup`. */
  function SortDedup(s: seq<Account>): (r: seq<Account>)
    ensures Elems(r) == Elems(s)
  {
    if s == [] then []
    else
      assert Elems(s) == Elems(s[1..]) + {s[0]};
      Insert(s[0], SortDedup(s[1..]))
  }

  function CreateRosca(cfg: Config, c: Circle, now: u64, signer: Account, randomOrder: bool,
                       invited: seq<Account>, threshold: u32, amount: u32, asset: Asset,
                       frequency: u64, startBy: u64, position: Option<u32>): Result<Circle>
  {
    var _ :- Require(|invited| <= cfg.maxInvited, Undecodable);
    var _ :- Require(amount > 0, ContributionAmountMustBePositive);
    var _ :- Require(frequency > 0, FrequencyMustBePositive);
    var _ :- Require(cfg.maxInvited < cfg.maxParticipants, ArithmeticError);
    var _ :- Require(signer !in invited, CantInviteSelf);
    var guests := SortDedup(invited);
    var slot := if position.Some? then position.value else 0;
    var n := |guests| + 1;
    var _ :- Require(threshold <= n, ThresholdTooHigh);
    var _ :- Require(slot < cfg.maxParticipants, PositionTooLarge);
    var _ :- Require(now < startBy, StartByTimestampMustBeFuture);
    var _ :- Require(slot < n, Panic);
    var _ :- Require(n <= cfg.maxParticipants, TooManyProposedParticipants);
    var d := Details(randomOrder, n, threshold, amount, asset, frequency, startBy);
    Ok(c.(pendingOrder := Some(seq(n, i => if i == slot then Some(signer) else None)),
          invited := c.invited + {signer} + (set a | a in guests),
          participants := c.participants[signer := slot],
          participantCount := Some(1),
          pending := Some(d),
          log := c.log + [RoscaCreated(d, [signer] + guests, signer)]))
  }

  /** The lowest free slot, as `iter().position(is_none)` finds it. */
  function FirstFree(order: seq<Option<Account>>): (r: Option<nat>)
    ensures r.Some? ==> r.value < |order| && order[r.value].None? && forall i :: 0 <= i < r.value ==> order[i].Some?
    ensures r.None? ==> forall i :: 0 <= i < |order| ==> order[i].Some?
  {
    if order == [] then None
    else if order[0].None? then Some(0)
    else
      var t := FirstFree(order[1..]);
      if t.Some? then Some(t.value + 1) else
        assert forall i :: 0 < i < |order| ==> order[i] == order[1..][i - 1];
        None
  }

  function PickSlot(order: seq<Option<Account>>, position: Option<u32>): (r: Result<nat>)
    ensures r.Ok? ==> r.value < |order| && order[r.value].None?
  {
    match position
    case Some(i) =>
      if i >= |order| then Err(PositionTooLarge)
      else if order[i].Some? then Err(PositionAlreadyFilled)
      else Ok(i)
    case None => FirstFree(order).OkOr(AllPositionsFilled)
  }

  function JoinRosca(c: Circle, now: u64, signer: Account, position: Option<u32>): Result<Circle> {
    var _ :- Require(c.active.None?, RoscaAlreadyActive);
    var _ :- Require(signer !in c.participants, AlreadyJoined);
    var _ :- Require(signer in c.invited, NotInvited);
    var d :- c.pending.OkOr(RoscaNotFound);
    var _ :- Require(now < d.startBy, StartByTimestampMustBeFuture);
    var order :- c.pendingOrder.OkOr(RoscaNotFound);
    var slot :- PickSlot(order, position);
    var count :- c.participantCount.OkOr(RoscaParticipantCountNotFound);
    var count' :- CheckedAdd32(count, 1);
    Ok(c.(pendingOrder := Some(order[slot := Some(signer)]),
          participants := c.participants[signer := slot],
          participantCount := Some(count'),
          log := c.log + [JoinedRosca(signer)]))
  }

  function LeaveRosca(id: RoscaId, v: View, signer: Account): Result<View> {
    var _ :- Require(v.c.active.None?, RoscaAlreadyActive);
    var _ :- Require(signer in v.c.participants, NotAParticipant);
    var d :- v.c.pending.OkOr(RoscaNotFound);
    var order :- v.c.pendingOrder.OkOr(RoscaParticipantsNotFound);
    var slot := v.c.participants[signer];
    if slot >= |order| then Err(Panic) else
    var count :- v.c.participantCount.OkOr(RoscaParticipantCountNotFound);
    if count == 0 then Err(ArithmeticUnderflow) else
    var c1 := v.c.(participants := v.c.participants - {signer},
                   pendingOrder := Some(order[slot := None]),
                   participantCount := Some(count - 1));
    var held := c1.Deposit(signer);
    if held == 0 then Ok(View(c1.Logged(LeftRosca(signer)), v.l)) else
    var l1 :- Transfer(v.l, d.asset, Pot(id), signer, held);
    var c2 := c1.(deposits := c1.deposits - {signer});
    Ok(View(c2.Logged(SecurityDepositClaimed(signer, held)).Logged(LeftRosca(signer)), l1))
  }

  // ---------- start ----------

  /** `filter_map(|p| p)`: the filled slots in order. */
  function Filled(s: seq<Option<Account>>): seq<Account> {
    if s == [] then []
    else Filled(s[..|s| - 1]) + (if s[|s| - 1].Some? then [s[|s| - 1].value] else [])
  }

  /** The index-removal loop of the shuffle; the i-th draw uses byte `draws(i)`. */
  function Draw(available: seq<nat>, draws: nat -> nat, i: nat): (r: seq<nat>)
    ensures |r| == |available|
    ensures forall j :: 0 <= j < |r| ==> r[j] in available
    decreases |available|
  {
    if available == [] then []
    else
      var k := draws(i) % |available|;
      [available[k]] + Draw(available[..k] + available[k + 1..], draws, i + 1)
  }

  /** Which participant ends up at each place: `Draw` over `0..n`. */
  function Shuffle(order: seq<Account>, draws: nat -> nat): (r: seq<Account>)
    ensures |r| == |order|
  {
    var picks := Draw(seq(|order|, i => i), draws, 0);
    seq(|order|, i requires 0 <= i < |order| => order[picks[i]])
  }

  /** The seed is shadowed inside the loop of the shuffle, so every draw uses the same byte. */
  function Always(byte: nat): nat -> nat {
    _ => byte
  }

  /** Everyone in the order except `x`. */
  function Without(s: seq<Account>, x: Account): seq<Account> {
    if s == [] then []
    else Without(s[..|s| - 1], x) + (if s[|s| - 1] != x then [s[|s| - 1]] else [])
  }

  datatype Partial = Partial(rounds: seq<RoundInfo>, cutoff: u64)

  /** The first `k` rounds of a schedule, and the cutoff one frequency after them. */
  function RoundsUpTo(cfg: Config, order: seq<Account>, t0: u64, f: pos64, k: nat): (r: Result<Partial>)
    requires k <= |order|
    ensures r.Ok? ==> |r.value.rounds| == k
  {
    if k == 0 then
      var cutoff :- CheckedAdd64(t0, f);
      Ok(Partial([], cutoff))
    else
      var p :- RoundsUpTo(cfg, order, t0, f, k - 1);
      var recipient := order[|order| - k];
      var others := Without(order, recipient);
      var _ :- Require(|others| <= cfg.maxInvited, TooManyProposedParticipants);
      var _ :- Require(|p.rounds| < cfg.maxParticipants, TooManyRounds);
      var next :- CheckedAdd64(p.cutoff, f);
      Ok(Partial(p.rounds + [RoundInfo(k, p.cutoff, others, recipient)], next))
  }

  function GenerateRounds(cfg: Config, order: seq<Account>, t0: u64, f: pos64): Result<seq<RoundInfo>> {
    var p :- RoundsUpTo(cfg, order, t0, f, |order|);
    Ok(p.rounds)
  }

  /** `k` checked additions of `f`. */
  function AddTimes(t: u64, f: pos64, k: nat): Result<u64> {
    if k == 0 then Ok(t)
    else
      var s :- AddTimes(t, f, k - 1);
      CheckedAdd64(s, f)
  }

  function StartRosca(cfg: Config, c: Circle, now: u64, signer: Account, byte: nat): Result<Circle> {
    var _ :- Require(c.active.None?, RoscaAlreadyActive);
    var _ :- Require(signer in c.participants, NotAParticipant);
    var d :- c.pending.OkOr(RoscaNotFound);
    var slots :- c.pendingOrder.OkOr(RoscaParticipantsNotFound);
    var _ :- Require(now < d.startBy, StartByTimestampMustBeFuture);
    var count :- c.participantCount.OkOr(RoscaParticipantCountNotFound);
    var _ :- Require(count >= d.threshold, ParticipantThresholdNotMet);
    var filled := Filled(Reverse(slots));
    var _ :- Require(|filled| <= cfg.maxParticipants, TooManyProposedParticipants);
    var order := if d.randomOrder then Shuffle(filled, Always(byte)) else filled;
    var rounds :- GenerateRounds(cfg, order, now, d.frequency);
    if order == [] then Err(Panic) else
    var first := order[|order| - 1];
    var next :- CheckedAdd64(now, d.frequency);
    var final :- AddTimes(next, d.frequency, if count == 0 then 0 else count - 1);
    Ok(c.(claimant := Some(first),
          order := Some(RotateRight(order)),
          nextPayBy := Some(next),
          finalPayBy := Some(final),
          active := Some(d),
          pending := None,
          log := c.log + [RoscaStarted(signer, rounds, first, next)]))
  }

  // ---------- closing a round at its deadline ----------

  /** One turn of the defaulter loop. */
  function SettleOne(id: RoscaId, d: Details, claimant: Account, v: View, p: Account): Result<View> {
    if p == claimant || p in v.c.contributors then Ok(v)
    else
      var held := v.c.Deposit(p);
      if held < d.amount then
        var v1 :- if held > 0 then
                    var l1 :- Transfer(v.l, d.asset, Pot(id), claimant, held);
                    Ok(View(v.c.(deposits := v.c.deposits[p := 0]).Logged(DepositDeducted(p, claimant, held, false)), l1))
                  else Ok(v);
        var count := v1.c.Defaults(p);
        var c2 := v1.c.(defaults := v1.c.defaults[p := if count < U32_MAX then count + 1 else count]);
        Ok(View(c2.Logged(ParticipantDefaulted(claimant, p)), v1.l))
      else
        var l1 :- Transfer(v.l, d.asset, Pot(id), claimant, d.amount);
        Ok(View(v.c.(deposits := v.c.deposits[p := held - d.amount]).Logged(DepositDeducted(p, claimant, d.amount, true)), l1))
  }

  /** The defaulter loop over the participants `ps`; it touches deposits, default counts and the log only. */
  function Settle(id: RoscaId, d: Details, claimant: Account, v: View, ps: seq<Account>): (r: Result<View>)
    ensures r.Ok? ==> r.value.c == v.c.(deposits := r.value.c.deposits, defaults := r.value.c.defaults, log := r.value.c.log)
  {
    if ps == [] then Ok(v)
    else
      var v1 :- Settle(id, d, claimant, v, ps[..|ps| - 1]);
      SettleOne(id, d, claimant, v1, ps[|ps| - 1])
  }

  function ProcessDefaulters(id: RoscaId, v: View): (r: Result<View>)
    ensures r.Ok? ==> r.value.c == v.c.(deposits := r.value.c.deposits, defaults := r.value.c.defaults, log := r.value.c.log)
  {
    var d :- v.c.active.OkOr(RoscaNotActive);
    var claimant :- v.c.claimant.OkOr(NoEligibleClaimant);
    var order :- v.c.order.OkOr(RoscaParticipantsNotFound);
    Settle(id, d, claimant, v, order)
  }

  function AdvanceRound(c: Circle): Result<Circle> {
    var d :- c.active.OkOr(RoscaNotActive);
    var due :- c.nextPayBy.OkOr(NoNextPayByTimestamp);
    var next :- CheckedAdd64(due, d.frequency);
    var order :- c.order.OkOr(RoscaParticipantsNotFound);
    if order == [] then Err(Panic) else
    var claimant := order[|order| - 1];
    Ok(c.(nextPayBy := Some(next),
          claimant := Some(claimant),
          order := Some(RotateRight(order)),
          contributors := ClearPrefix(c.contributors, |order| - 1),
          contributionCount := 0,
          log := c.log + [NewRoundStarted(claimant, next)]))
  }

  function CloseRound(id: RoscaId, v: View): (r: Result<View>)
    ensures r.Ok? ==>
              && v.c.active.Some? && v.c.nextPayBy.Some? && r.value.c.nextPayBy.Some?
              && r.value.c.nextPayBy.value == v.c.nextPayBy.value + v.c.active.value.frequency
  {
    var v1 :- ProcessDefaulters(id, v);
    var c2 :- AdvanceRound(v1.c);
    Ok(View(c2, v1.l))
  }

  function Complete(c: Circle): Circle {
    c.(completed := true, active := None, log := c.log + [RoscaComplete])
  }

  datatype Checked = Checked(c: Circle, done: bool)

  function CheckAndComplete(c: Circle): Result<Checked> {
    var _ :- c.active.OkOr(RoscaNotActive);
    var final :- c.finalPayBy.OkOr(FinalPayByTimestampNotFound);
    var next :- c.nextPayBy.OkOr(NoNextPayByTimestamp);
    if next > final then Ok(Checked(Complete(c), true)) else Ok(Checked(c, false))
  }

  // ---------- contribute and manual end ----------

  datatype CaughtUp = CaughtUp(v: View, done: bool)

  /** The catch-up loop of `contribute_to_rosca`. */
  function CatchUp(id: RoscaId, v: View, now: u64): Result<CaughtUp>
    decreases if v.c.nextPayBy.Some? && v.c.nextPayBy.value <= now then now - v.c.nextPayBy.value + 1 else 0
  {
    var next :- v.c.nextPayBy.OkOr(NoNextPayByTimestamp);
    if now < next then Ok(CaughtUp(v, false))
    else
      var v1 :- CloseRound(id, v);
      var k :- CheckAndComplete(v1.c);
      if k.done then Ok(CaughtUp(View(k.c, v1.l), true))
      else CatchUp(id, View(k.c, v1.l), now)
  }

  /** The inline end of a round, when the last expected contribution has just been recorded. */
  function FinishRound(c: Circle, d: Details, order: seq<Account>, due: u64, final: u64): Result<Circle> {
    var next :- CheckedAdd64(due, d.frequency);
    if next > final then Ok(Complete(c))
    else if order == [] then Err(Panic)
    else
      var claimant := order[|order| - 1];
      Ok(c.(nextPayBy := Some(next),
            claimant := Some(claimant),
            order := Some(RotateRight(order)),
            contributors := ClearPrefix(c.contributors, |order| - 1),
            contributionCount := 0,
            log := c.log + [NewRoundStarted(claimant, next)]))
  }

  /** The payment that follows the catch-up, and the end of the round when it was the last one. */
  function Pay(v: View, d: Details, final: u64, signer: Account): Result<View> {
    var claimant :- v.c.claimant.OkOr(NoEligibleClaimant);
    var due :- v.c.nextPayBy.OkOr(NoNextPayByTimestamp);
    var order :- v.c.order.OkOr(RoscaParticipantsNotFound);
    var l1 :- Transfer(v.l, d.asset, signer, claimant, d.amount);
    var count :- CheckedAdd32(v.c.contributionCount, 1);
    var c1 := v.c.(contributors := v.c.contributors + {signer},
                   contributionCount := count,
                   log := v.c.log + [ContributionMade(signer, claimant, d.amount)]);
    if order == [] then Err(Panic)
    else if count == |order| - 1 then
      var c2 :- FinishRound(c1, d, order, due, final);
      Ok(View(c2, l1))
    else Ok(View(c1, l1))
  }

  function ContributeToRosca(id: RoscaId, v: View, now: u64, signer: Account): Result<View> {
    var _ :- Require(signer in v.c.participants, NotAParticipant);
    var _ :- Require(!v.c.completed, RoscaAlreadyCompleted);
    var d :- v.c.active.OkOr(RoscaNotActive);
    var claimant :- v.c.claimant.OkOr(NoEligibleClaimant);
    var _ :- Require(claimant != signer, CantContributeToSelf);
    var _ :- Require(signer !in v.c.contributors, AlreadyContributed);
    var final :- v.c.finalPayBy.OkOr(FinalPayByTimestampNotFound);
    var _ :- v.c.nextPayBy.OkOr(NoNextPayByTimestamp);
    var _ :- v.c.order.OkOr(RoscaParticipantsNotFound);
    var u :- CatchUp(id, v, now);
    if u.done then Ok(u.v) else Pay(u.v, d, final, signer)
  }

  /** The loop of `manually_end_rosca`. */
  function EndLoop(id: RoscaId, v: View, final: u64): Result<View>
    decreases if v.c.nextPayBy.Some? && v.c.nextPayBy.value <= final then final - v.c.nextPayBy.value + 1 else 0
  {
    if v.c.nextPayBy.Some? && v.c.nextPayBy.value <= final then
      var v1 :- CloseRound(id, v);
      EndLoop(id, v1, final)
    else Ok(v)
  }

  function ManuallyEnd(id: RoscaId, v: View, now: u64): Result<View> {
    var d :- v.c.active.OkOr(RoscaNotActive);
    var final :- v.c.finalPayBy.OkOr(FinalPayByTimestampNotFound);
    var _ :- Require(now > final, FinalPayByTimestampMustBePast);
    var v1 :- EndLoop(id, v, final);
    var next :- v1.c.nextPayBy.OkOr(NoNextPayByTimestamp);
    var last :- CheckedAdd64(final, d.frequency);
    var _ :- Require(next == last, ArithmeticError);
    Ok(View(Complete(v1.c), v1.l))
  }

  // ---------- deposits ----------

  function ClaimDeposit(id: RoscaId, v: View, now: u64, signer: Account, asset: Asset): Result<View> {
    var final :- v.c.finalPayBy.OkOr(FinalPayByTimestampNotFound);
    var _ :- Require(now > final, FinalPayByTimestampMustBePast);
    var _ :- Require(v.c.pending.Some? || v.c.completed, RoscaStillActive);
    var _ :- Require(signer in v.c.deposits, SecurityDepositNotFound);
    var held := v.c.deposits[signer];
    var _ :- Require(held > 0, SecurityDepositIsZero);
    var l1 :- Transfer(v.l, asset, Pot(id), signer, held);
    Ok(View(v.c.(deposits := v.c.deposits - {signer}).Logged(SecurityDepositClaimed(signer, held)), l1))
  }

  function AddDeposit(id: RoscaId, v: View, signer: Account, amount: u32): Result<View> {
    var _ :- Require(signer in v.c.participants, NotAParticipant);
    var _ :- Require(!v.c.completed, RoscaAlreadyCompleted);
    var d :- v.c.active.Or(v.c.pending).OkOr(RoscaNotFound);
    var l1 :- Transfer(v.l, d.asset, signer, Pot(id), amount);
    var total :- CheckedAdd32(v.c.Deposit(signer), amount);
    Ok(View(v.c.(deposits := v.c.deposits[signer := total]).Logged(SecurityDepositContribution(signer, amount)), l1))
  }
}

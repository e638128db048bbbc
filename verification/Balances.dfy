/** The balance of a circle's account over every run, asset by asset. */
module Balances {
  import opened Prelude
  import opened Storage
  import opened Rules
  import opened Rota
  import opened Circles
  import opened Membership
  import opened Deposits
  import opened Ledgers
  import opened Mirror
  import opened Runs
  import opened Agreement
  import opened Theorems
  import opened Statements

  /** What the account of circle `id` holds of asset a beyond the deposits recorded in that asset. */
  ghost function Spare(w: World, id: RoscaId, a: Asset): int {
    var c := w.At(id);
    w.ledger.Balance(a, Pot(id)) - if HasTerms(c) && Terms(c).asset == a then Sum(c.deposits) else 0
  }

  /** What a move adds to it: a gift from outside; or, when a deposit is claimed in the other asset, the deposit left
      behind in the circle's own asset and the same amount taken out of the other. */
  ghost function Inflow(w: World, m: Move, id: RoscaId, a: Asset): int {
    if Step(w, m) == w then 0
    else if m.Outside? && m.to == Pot(id) && m.asset == a then m.sum
    else if m.Do? && m.call.id == id && HasTerms(w.At(id)) && m.call.Claim? && m.call.asset != Terms(w.At(id)).asset then
      var held: int := w.At(id).Deposit(m.signer);
      if a == Terms(w.At(id)).asset then held else -held
    else 0
  }

  ghost function InflowOver(w: World, ms: seq<Move>, id: RoscaId, a: Asset): int {
    if ms == [] then 0
    else InflowOver(w, ms[..|ms| - 1], id, a) + Inflow(Run(w, ms[..|ms| - 1]), ms[|ms| - 1], id, a)
  }

  // ---------- one move ----------

  lemma WellAsset(cfg: Config, id: RoscaId, c: Circle, l: Ledger, call: Call)
    requires Well(cfg, id, c, l) && !call.Claim? && AssetOf(c, call).Some?
    ensures HasTerms(c) && AssetOf(c, call) == Some(Terms(c).asset)
  {
    hide Seating, Quiet, SavingsOk, DefaultsOk, Solvent, Positioned, Collecting;
  }

  /** The asset a circle does not use moves on its account only when a deposit is claimed in it. */
  lemma OtherAsset(cfg: Config, now: u64, v: View, signer: Account, call: Call, b: Asset)
    requires Well(cfg, call.id, v.c, v.l) && signer.Member? && CallOn(cfg, now, v, signer, call).Ok? && HasTerms(v.c) && b != Terms(v.c).asset
    ensures CallOn(cfg, now, v, signer, call).value.l.Balance(b, Pot(call.id))
         == v.l.Balance(b, Pot(call.id)) - if call.Claim? && call.asset == b then v.c.Deposit(signer) else 0
  {
    hide Well, CallOn, Net;
    CallBooked(cfg, now, v, signer, call);
    if call.Claim? {
      CallNeeds(cfg, now, v, signer, call);
      ClaimMoves(cfg, now, v, signer, call);
    } else {
      WellAsset(cfg, call.id, v.c, v.l, call);
    }
  }

  lemma ClaimMoves(cfg: Config, now: u64, v: View, signer: Account, call: Call)
    requires call.Claim? && v.c.finalPayBy.Some? && CallOn(cfg, now, v, signer, call).Ok?
    ensures Moved(v.l, CallOn(cfg, now, v, signer, call).value.l, call.asset, Pot(call.id), signer, v.c.Deposit(signer))
  {
    hide Moved, Touched, ClaimDeposit;
    ClaimIs(call.id, v, now, signer, call.asset);
  }

  lemma StepSurplus(w: World, m: Move, id: RoscaId, a: Asset)
    requires Sound(w) && Fresh(w, m)
    ensures Spare(Step(w, m), id, a) == Spare(w, id, a) + Inflow(w, m, id, a)
  {
    hide Well, CallOn, CreateRosca, Transfer, Sum, Ledger.Of, Ledger.Supply;
    var w' := Step(w, m);
    if w' == w {
    } else if m.Do? && m.call.id == id {
      DoSurplus(w, m, a);
    } else if m.Do? {
      CallsAreIsolated(w, m.signer, m.call, id);
    } else if m.Outside? {
      TransferEffect(w.ledger, m.asset, m.from, m.to, m.sum);
      GiftsOnly(w.ledger, w'.ledger, m.asset, m.from, m.to, m.sum, id);
    } else if m.Create? && id == w.nextId {
      NoDepositsYet(w, m);
    } else {
      assert w'.At(id) == w.At(id);
    }
  }

  lemma NoDepositsYet(w: World, m: Move)
    requires Sound(w) && Fresh(w, m) && m.Create? && Step(w, m) != w
    ensures w.At(w.nextId) == EMPTY && Sum(Step(w, m).At(w.nextId).deposits) == 0
  {
    hide SortDedup;
    assert Step(w, m).At(w.nextId).deposits == map[];
  }

  lemma DoSurplus(w: World, m: Move, a: Asset)
    requires Sound(w) && m.Do? && Step(w, m) != w
    ensures Spare(Step(w, m), m.call.id, a) == Spare(w, m.call.id, a) + Inflow(w, m, m.call.id, a)
  {
    hide Well, CallOn, Sum, Ledger.Of, Ledger.Supply, Ledger.Balance, Kept;
    var id := m.call.id;
    DoSound(w, m.signer, m.call);
    if a != Terms(w.At(id)).asset {
      OtherAsset(w.cfg, w.now, View(w.At(id), w.ledger), m.signer, m.call, a);
    }
  }

  // ---------- every run ----------

  /** Over any run, circle `id` created in it or not: what its account holds of an asset beyond the deposits recorded in
      that asset grows by exactly the gifts and the claims made in the wrong asset. */
  lemma {:induction false} SurplusOverRun(w: World, ms: seq<Move>, id: RoscaId, a: Asset)
    requires Sound(w) && FreshRun(w, ms)
    ensures Spare(Run(w, ms), id, a) == Spare(w, id, a) + InflowOver(w, ms, id, a)
  {
    hide Well, Step, Inflow, Spare, Fresh;
    if ms != [] {
      var before := ms[..|ms| - 1];
      SurplusOverRun(w, before, id, a);
      RunSound(w, before);
      StepSurplus(Run(w, before), ms[|ms| - 1], id, a);
    }
  }

  /** Nothing came in from outside or was left behind. */
  ghost predicate NoInflow(w: World, ms: seq<Move>, id: RoscaId, a: Asset) {
    ms != [] ==> NoInflow(w, ms[..|ms| - 1], id, a) && Inflow(Run(w, ms[..|ms| - 1]), ms[|ms| - 1], id, a) == 0
  }

  /** In the circle's own asset nothing ever flows out of the surplus. */
  lemma {:induction false} InflowsAddUp(w: World, ms: seq<Move>, id: RoscaId, a: Asset)
    requires Sound(w) && FreshRun(w, ms)
    requires Run(w, ms).Has(id) ==> HasTerms(Run(w, ms).At(id)) && Terms(Run(w, ms).At(id)).asset == a
    ensures InflowOver(w, ms, id, a) >= 0
    ensures InflowOver(w, ms, id, a) == 0 <==> NoInflow(w, ms, id, a)
  {
    hide Well, Step, Fresh, World.Has, Onward;
    if ms != [] {
      var before, m := ms[..|ms| - 1], ms[|ms| - 1];
      var v := Run(w, before);
      RunSound(w, before);
      TermsStay(v, m, id);
      InflowsAddUp(w, before, id, a);
      OwnAsset(v, m, id, a);
    }
  }

  lemma TermsStay(w: World, m: Move, id: RoscaId)
    requires Sound(w) && Fresh(w, m)
    ensures w.Has(id) ==> Step(w, m).Has(id) && HasTerms(w.At(id)) && HasTerms(Step(w, m).At(id)) && Terms(Step(w, m).At(id)) == Terms(w.At(id))
  {
    hide Well, Step;
    if w.Has(id) {
      StepOnward(w, m, id);
    }
  }

  lemma OwnAsset(w: World, m: Move, id: RoscaId, a: Asset)
    requires w.Has(id) ==> HasTerms(w.At(id)) && Terms(w.At(id)).asset == a
    ensures Inflow(w, m, id, a) >= 0
  {
    hide Step;
  }

  /** In every reachable state the circle's account holds exactly the recorded deposits if and only if it held nothing
      at the beginning, got no gift of its asset and no deposit was ever claimed in the other asset. */
  lemma ExactlySolventIff(w0: World, ms: seq<Move>, w: World, id: RoscaId)
    requires Reached(w0, ms, w) && w.Has(id)
    ensures HasTerms(w.At(id))
    ensures var a := Terms(w.At(id)).asset;
            w.ledger.Balance(a, Pot(id)) == Sum(w.At(id).deposits) <==>
              w0.ledger.Balance(a, Pot(id)) == 0 && NoInflow(w0, ms, id, a)
  {
    hide Well, Mirrored, Step, Inflow, NoInflow, InflowOver, Sum, Ledger.Balance, SavingsOk, Solvent;
    ReachedSound(w0, ms, w);
    GenesisSound(w0);
    WellTerms(w.cfg, id, w.At(id), w.ledger);
    var a := Terms(w.At(id)).asset;
    SurplusOverRun(w0, ms, id, a);
    InflowsAddUp(w0, ms, id, a);
    assert !w0.Has(id);
  }

  /** A deposit claimed in the other asset stays in the circle's account for good: in whatever follows, the account
      holds at least that much more than all recorded deposits, and the claimant can claim nothing again. */
  lemma LeftBehindForGood(w: World, id: RoscaId, p: Account, b: Asset, ms: seq<Move>)
    requires Sound(w) && w.At(id).completed && HasTerms(w.At(id)) && b != Terms(w.At(id)).asset
    requires Step(w, Do(p, Claim(id, b))) != w && FreshRun(Step(w, Do(p, Claim(id, b))), ms)
    ensures var held, w' := w.At(id).Deposit(p), Run(Step(w, Do(p, Claim(id, b))), ms);
            && held > 0 && HasTerms(w'.At(id)) && Terms(w'.At(id)) == Terms(w.At(id))
            && w'.ledger.Balance(Terms(w.At(id)).asset, Pot(id)) >= Sum(w'.At(id).deposits) + held
            && p !in w'.At(id).deposits
  {
    hide Well, Step, Sum, Ledger.Balance, SavingsOk, GoodStep, Onward, FreshRun, InflowOver, ClaimDeposit;
    var a, m := Terms(w.At(id)).asset, Do(p, Claim(id, b));
    var w1 := Step(w, m);
    DoSound(w, p, Claim(id, b));
    WellTerms(w.cfg, id, w.At(id), w.ledger);
    ClaimTakes(w, id, p, b);
    StepSurplus(w, m, id, a);
    TermsStay(w, m, id);
    RunSound(w1, ms);
    RunOnward(w1, ms, id);
    OnwardTerms(w1.At(id), Run(w1, ms).At(id));
    SurplusOverRun(w1, ms, id, a);
    InflowsAddUp(w1, ms, id, a);
    RunDeposits(w1, ms, id);
  }

  lemma OnwardTerms(c: Circle, c': Circle)
    requires Onward(c, c')
    ensures HasTerms(c) && HasTerms(c') && Terms(c') == Terms(c)
  {
  }

  lemma ClaimTakes(w: World, id: RoscaId, p: Account, b: Asset)
    requires Step(w, Do(p, Claim(id, b))) != w && w.At(id).completed
    ensures p.Member? && w.At(id).Deposit(p) > 0
    ensures var c' := Step(w, Do(p, Claim(id, b))).At(id); c'.completed && c'.deposits == w.At(id).deposits - {p}
  {
    hide Transfer;
  }
}

/** Missed deadlines: the catch-up loop and the manual end in closed form, and why they agree. */
module Deadlines {
  import opened Prelude
  import opened Storage
  import opened Rules
  import opened Schedule
  import opened Rota
  import opened Circles

  /** `m` rounds closed at their deadlines, one after the other. */
  function CloseRounds(id: RoscaId, v: View, m: nat): Result<View>
    decreases m
  {
    if m == 0 then Ok(v)
    else
      var v1 :- CloseRound(id, v);
      CloseRounds(id, v1, m - 1)
  }

  /** The first round from r on whose deadline is still ahead at time `now`; n + 1 when there is none. */
  function Window(rs: seq<RoundInfo>, r: nat, now: u64): (w: nat)
    requires 1 <= r <= |rs| + 1
    ensures r <= w <= |rs| + 1
    ensures forall k :: r - 1 <= k < w - 1 ==> rs[k].cutoff <= now
    ensures w <= |rs| ==> now < rs[w - 1].cutoff
    decreases |rs| - r + 1
  {
    if r > |rs| || now < rs[r - 1].cutoff then r else Window(rs, r + 1, now)
  }

  lemma RunningDue(id: RoscaId, c: Circle, l: Ledger, rs: seq<RoundInfo>, r: nat)
    requires Running(id, c, l, rs, r)
    ensures 1 <= r <= |rs| + 1 && c.active.Some? && c.finalPayBy.Some? && c.nextPayBy.Some?
    ensures r <= |rs| ==> c.nextPayBy.value == rs[r - 1].cutoff <= c.finalPayBy.value
    ensures r == |rs| + 1 ==> c.nextPayBy.value == c.finalPayBy.value + c.active.value.frequency
  {
    if r <= |rs| {
      NextDue(rs, c.Members(), Terms(c).frequency, r);
    }
  }

  lemma CheckRunning(id: RoscaId, c: Circle, l: Ledger, rs: seq<RoundInfo>, r: nat)
    requires Running(id, c, l, rs, r)
    ensures CheckAndComplete(c) == Ok(if r <= |rs| then Checked(c, false) else Checked(Complete(c), true))
  {
    RunningDue(id, c, l, rs, r);
    hide Running;
  }

  /** Closing m rounds at their deadlines takes a running circle exactly m rounds further. */
  lemma {:induction false} CloseRoundsRun(id: RoscaId, v: View, m: nat, rs: seq<RoundInfo>, r: nat)
    requires Running(id, v.c, v.l, rs, r) && r + m <= |rs| + 1
    ensures CloseRounds(id, v, m).Ok?
    ensures Running(id, CloseRounds(id, v, m).value.c, CloseRounds(id, v, m).value.l, rs, r + m)
    decreases m
  {
    hide Running, CloseRound;
    if m > 0 {
      CloseRoundRuns(id, v, rs, r);
      CloseRoundsRun(id, CloseRound(id, v).value, m - 1, rs, r + 1);
    }
  }

  ghost function CaughtUpAfter(v: View, last: bool): CaughtUp {
    if last then CaughtUp(View(Complete(v.c), v.l), true) else CaughtUp(v, false)
  }

  /** The catch-up loop never fails. It closes exactly the rounds whose deadline has passed, and
      completes the circle exactly when that is all of them. */
  lemma {:induction false} CatchUpClosedForm(id: RoscaId, v: View, now: u64, rs: seq<RoundInfo>, r: nat)
    requires Running(id, v.c, v.l, rs, r) && r <= |rs|
    ensures CloseRounds(id, v, Window(rs, r, now) - r).Ok?
    ensures CatchUp(id, v, now) == Ok(CaughtUpAfter(CloseRounds(id, v, Window(rs, r, now) - r).value, Window(rs, r, now) > |rs|))
    decreases |rs| - r
  {
    hide Running, CloseRound, CheckAndComplete;
    RunningDue(id, v.c, v.l, rs, r);
    if now >= rs[r - 1].cutoff {
      CloseRoundRuns(id, v, rs, r);
      var v1 := CloseRound(id, v).value;
      CheckRunning(id, v1.c, v1.l, rs, r + 1);
      assert v1 == View(v1.c, v1.l);
      if r < |rs| {
        CatchUpClosedForm(id, v1, now, rs, r + 1);
      }
    }
  }

  lemma {:induction false} EndLoopClosedForm(id: RoscaId, v: View, rs: seq<RoundInfo>, r: nat)
    requires Running(id, v.c, v.l, rs, r)
    ensures r <= |rs| + 1 && v.c.finalPayBy.Some?
    ensures CloseRounds(id, v, |rs| + 1 - r).Ok?
    ensures EndLoop(id, v, v.c.finalPayBy.value) == CloseRounds(id, v, |rs| + 1 - r)
    decreases |rs| + 1 - r
  {
    hide Running, CloseRound;
    RunningDue(id, v.c, v.l, rs, r);
    if r <= |rs| {
      CloseRoundRuns(id, v, rs, r);
      var v1 := CloseRound(id, v).value;
      CloseRoundKeeps(id, v);
      EndLoopClosedForm(id, v1, rs, r + 1);
    }
  }

  /** Past the final deadline the manual end always succeeds, after exactly n - r + 1 turns of its loop. */
  lemma ManualEndSucceeds(id: RoscaId, v: View, now: u64, rs: seq<RoundInfo>, r: nat)
    requires Running(id, v.c, v.l, rs, r) && r <= |rs|
    requires v.c.finalPayBy.Some? && now > v.c.finalPayBy.value
    ensures CloseRounds(id, v, |rs| + 1 - r).Ok?
    ensures ManuallyEnd(id, v, now) ==
              Ok(View(Complete(CloseRounds(id, v, |rs| + 1 - r).value.c), CloseRounds(id, v, |rs| + 1 - r).value.l))
    ensures Finished(id, ManuallyEnd(id, v, now).value.c, ManuallyEnd(id, v, now).value.l, rs)
  {
    hide Running, CloseRounds, EndLoop, Finished, Complete;
    EndLoopClosedForm(id, v, rs, r);
    CloseRoundsRun(id, v, |rs| + 1 - r, rs, r);
    var u := CloseRounds(id, v, |rs| + 1 - r).value;
    RunningDue(id, v.c, v.l, rs, r);
    RunningDue(id, u.c, u.l, rs, |rs| + 1);
    CloseRoundsKeep(id, v, |rs| + 1 - r);
    CompleteFinishes(id, u.c, u.l, rs);
  }

  lemma CloseRoundKeeps(id: RoscaId, v: View)
    requires CloseRound(id, v).Ok?
    ensures CloseRound(id, v).value.c.active == v.c.active
    ensures CloseRound(id, v).value.c.finalPayBy == v.c.finalPayBy
  {
    hide Settle;
  }

  lemma {:induction false} CloseRoundsKeep(id: RoscaId, v: View, m: nat)
    requires CloseRounds(id, v, m).Ok?
    ensures CloseRounds(id, v, m).value.c.active == v.c.active
    ensures CloseRounds(id, v, m).value.c.finalPayBy == v.c.finalPayBy
    decreases m
  {
    hide CloseRound;
    if m > 0 {
      CloseRoundKeeps(id, v);
      CloseRoundsKeep(id, CloseRound(id, v).value, m - 1);
    }
  }

  /** Catching up twice is catching up once: a later catch-up does not depend on an earlier one. */
  lemma {:induction false} LazyIsEager(id: RoscaId, v: View, t: u64, t': u64)
    requires t <= t' && CatchUp(id, v, t).Ok?
    ensures CatchUp(id, v, t).value.done ==> CatchUp(id, v, t') == CatchUp(id, v, t)
    ensures !CatchUp(id, v, t).value.done ==> CatchUp(id, v, t') == CatchUp(id, CatchUp(id, v, t).value.v, t')
    decreases if v.c.nextPayBy.Some? && v.c.nextPayBy.value <= t then t - v.c.nextPayBy.value + 1 else 0
  {
    hide CheckAndComplete;
    if v.c.nextPayBy.Some? && v.c.nextPayBy.value <= t {
      var v1 := CloseRound(id, v).value;
      var k := CheckAndComplete(v1.c).value;
      if !k.done {
        CheckKeeps(v1.c);
        LazyIsEager(id, View(k.c, v1.l), t, t');
      }
    }
  }

  lemma CheckKeeps(c: Circle)
    ensures CheckAndComplete(c).Ok? && !CheckAndComplete(c).value.done ==> CheckAndComplete(c).value.c == c
  {
  }

  /** Past the final deadline a contribution's catch-up and the manual end lead to the same state. */
  lemma EndsAgree(id: RoscaId, v: View, now: u64, rs: seq<RoundInfo>, r: nat)
    requires Running(id, v.c, v.l, rs, r) && r <= |rs|
    requires v.c.finalPayBy.Some? && now > v.c.finalPayBy.value
    ensures ManuallyEnd(id, v, now).Ok?
    ensures CatchUp(id, v, now) == Ok(CaughtUp(ManuallyEnd(id, v, now).value, true))
  {
    hide Running, CloseRounds, Finished, ManuallyEnd, CatchUp;
    ManualEndSucceeds(id, v, now, rs, r);
    RunningDue(id, v.c, v.l, rs, r);
    CatchUpClosedForm(id, v, now, rs, r);
    RunningSchedule(id, v.c, v.l, rs, r);
    AllPast(rs, v.c.Members(), Terms(v.c).frequency, r, now);
  }

  lemma RunningSchedule(id: RoscaId, c: Circle, l: Ledger, rs: seq<RoundInfo>, r: nat)
    requires Running(id, c, l, rs, r)
    ensures HasTerms(c) && ScheduleFor(rs, c.Members(), Terms(c).frequency)
    ensures c.finalPayBy == Some(rs[|rs| - 1].cutoff) && 1 <= r <= |rs| + 1
  {
  }

  lemma AllPast(rs: seq<RoundInfo>, members: set<Account>, f: pos64, r: nat, now: u64)
    requires ScheduleFor(rs, members, f) && 1 <= r <= |rs|
    requires now >= rs[|rs| - 1].cutoff
    ensures Window(rs, r, now) == |rs| + 1
  {
    var w := Window(rs, r, now);
    if w <= |rs| {
      Lattice(rs, members, f, w - 1, |rs| - 1);
    }
  }
}

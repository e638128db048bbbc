/** Why the redundant pieces of an active circle agree: order, claimant, deadline, contributor set and
    counter are all determined by the published schedule and the number of the current round. */
module Rota {
  import opened Prelude
  import opened Storage
  import opened Rules
  import opened Schedule

  /** The round, counted from zero, whose recipient stands at place j of the order in round r.
      Round n + 1 is the state between the last deadline and completion: the order has wrapped. */
  function SeatOf(n: nat, r: nat, j: nat): (k: nat)
    requires j < n && 1 <= r <= n + 1
    ensures k < n
  {
    var s := if r > n then r - n else r;
    if j < s then s - 1 - j else n - 1 - (j - s)
  }

  /** The deadline of round r; for r = n + 1 it lies one frequency past the last round. */
  ghost function DueAt(rs: seq<RoundInfo>, f: pos64, r: nat): nat
    requires |rs| > 0 && 1 <= r <= |rs| + 1
  {
    if r <= |rs| then rs[r - 1].cutoff else rs[|rs| - 1].cutoff + f
  }

  ghost predicate OrderAt(order: seq<Account>, rs: seq<RoundInfo>, r: nat)
    requires 1 <= r <= |rs| + 1
  {
    && |order| == |rs|
    && forall j :: 0 <= j < |rs| ==> order[j] == rs[SeatOf(|rs|, r, j)].recipient
  }

  /** Few enough contributors for a bounded clear to remove them all. */
  ghost predicate Collecting(c: Circle, n: nat) {
    && c.contributors <= c.Members()
    && c.contributionCount == |c.contributors|
    && (c.contributors == {} || |c.contributors| < n - 1)
  }

  /** Order, claimant and deadlines are those of round r. */
  ghost predicate Positioned(c: Circle, f: pos64, rs: seq<RoundInfo>, r: nat) {
    && ScheduleFor(rs, c.Members(), f)
    && 1 <= r <= |rs| + 1
    && c.order.Some? && OrderAt(c.order.value, rs, r)
    && c.claimant == Some(c.order.value[0])
    && c.nextPayBy == Some(DueAt(rs, f, r))
    && c.finalPayBy == Some(rs[|rs| - 1].cutoff)
  }

  ghost predicate OnTrack(c: Circle, f: pos64, rs: seq<RoundInfo>, r: nat) {
    Positioned(c, f, rs, r) && Collecting(c, |rs|)
  }

  /** Rotating the order right by one moves it to the next round. */
  lemma OrderRotates(order: seq<Account>, rs: seq<RoundInfo>, r: nat)
    requires |rs| > 0 && 1 <= r <= |rs| && OrderAt(order, rs, r)
    ensures OrderAt(RotateRight(order), rs, r + 1)
  {
    var n := |rs|;
    forall j | 0 <= j < n ensures RotateRight(order)[j] == rs[SeatOf(n, r + 1, j)].recipient {
      if j == 0 {
        assert SeatOf(n, r + 1, 0) == SeatOf(n, r, n - 1);
      } else {
        assert RotateRight(order)[j] == order[j - 1];
        assert SeatOf(n, r + 1, j) == SeatOf(n, r, j - 1);
      }
    }
  }

  /** The order in round r is the starting order rotated right r times. */
  function RotatedRight(s: seq<Account>, k: nat): (r: seq<Account>)
    requires |s| > 0
    ensures |r| == |s|
  {
    if k == 0 then s else RotateRight(RotatedRight(s, k - 1))
  }

  lemma FirstOrder(start: seq<Account>, rs: seq<RoundInfo>)
    requires |rs| > 0 && start == Reverse(Recipients(rs))
    ensures OrderAt(RotateRight(start), rs, 1)
  {
    forall j | 0 <= j < |rs| ensures RotateRight(start)[j] == rs[SeatOf(|rs|, 1, j)].recipient {
      if j > 0 {
        assert RotateRight(start)[j] == start[j - 1];
      }
    }
  }

  lemma {:induction false} OrderIsRotation(order: seq<Account>, rs: seq<RoundInfo>, r: nat)
    requires |rs| > 0 && 1 <= r <= |rs| + 1 && OrderAt(order, rs, r)
    ensures order == RotatedRight(Reverse(Recipients(rs)), r)
  {
    RotationsAreOrders(rs, r);
  }

  lemma {:induction false} RotationsAreOrders(rs: seq<RoundInfo>, r: nat)
    requires |rs| > 0 && 1 <= r <= |rs| + 1
    ensures OrderAt(RotatedRight(Reverse(Recipients(rs)), r), rs, r)
  {
    var start := Reverse(Recipients(rs));
    if r == 1 {
      FirstOrder(start, rs);
      assert RotatedRight(start, 0) == start;
    } else {
      RotationsAreOrders(rs, r - 1);
      hide OrderAt, Reverse, Recipients;
      OrderRotates(RotatedRight(start, r - 1), rs, r - 1);
    }
  }

  /** Nobody is listed twice, and the list is exactly the membership. */
  lemma OrderLists(order: seq<Account>, rs: seq<RoundInfo>, r: nat, members: set<Account>, f: pos64)
    requires ScheduleFor(rs, members, f) && 1 <= r <= |rs| + 1 && OrderAt(order, rs, r)
    ensures Distinct(order)
    ensures Elems(order) == members
  {
    var n := |rs|;
    forall i, j | 0 <= i < j < n ensures order[i] != order[j] {
      assert SeatOf(n, r, i) != SeatOf(n, r, j);
      assert Recipients(rs)[SeatOf(n, r, i)] != Recipients(rs)[SeatOf(n, r, j)];
    }
    forall a | a in Elems(order) ensures a in members {
      var j :| 0 <= j < n && order[j] == a;
      assert Recipients(rs)[SeatOf(n, r, j)] in Elems(Recipients(rs));
    }
    DistinctCard(order);
    DistinctCard(Recipients(rs));
    SubsetCard(Elems(order), members);
  }

  lemma PositionedLists(c: Circle, f: pos64, rs: seq<RoundInfo>, r: nat)
    requires Positioned(c, f, rs, r)
    ensures c.claimant.Some? && c.claimant.value in c.Members()
    ensures c.order.Some? && Distinct(c.order.value) && forall p :: p in c.order.value <==> p in c.Members()
    ensures |c.Members()| == |rs|
  {
    OrderLists(c.order.value, rs, r, c.Members(), f);
    ScheduleSize(rs, c.Members(), f);
    assert c.order.value[0] in Elems(c.order.value);
    hide ScheduleFor, OrderAt, DueAt;
    assert forall p :: p in c.order.value <==> p in Elems(c.order.value);
  }

  /** In round r the claimant is the recipient that the schedule announced for it. */
  lemma ClaimantIsScheduled(c: Circle, f: pos64, rs: seq<RoundInfo>, r: nat)
    requires Positioned(c, f, rs, r)
    ensures c.claimant == Some(rs[if r <= |rs| then r - 1 else 0].recipient)
  {
    assert SeatOf(|rs|, r, 0) == if r <= |rs| then r - 1 else 0;
  }

  /** What moving on to the next round writes. */
  ghost function NextRound(c: Circle, order: seq<Account>, next: u64): Circle
    requires |order| > 0
  {
    c.(nextPayBy := Some(next),
       claimant := Some(order[|order| - 1]),
       order := Some(RotateRight(order)),
       contributors := {},
       contributionCount := 0,
       log := c.log + [NewRoundStarted(order[|order| - 1], next)])
  }

  lemma NextRoundOnTrack(c: Circle, f: pos64, rs: seq<RoundInfo>, r: nat)
    requires Positioned(c, f, rs, r) && r <= |rs|
    ensures DueAt(rs, f, r) + f == DueAt(rs, f, r + 1) <= U64_MAX
    ensures OnTrack(NextRound(c, c.order.value, DueAt(rs, f, r + 1)), f, rs, r + 1)
  {
    NextDue(rs, c.Members(), f, r);
    OrderRotates(c.order.value, rs, r);
    hide ScheduleFor, OrderAt, DueAt;
  }

  /** No deadline that the circle can still reach overflows. */
  lemma NextDue(rs: seq<RoundInfo>, members: set<Account>, f: pos64, r: nat)
    requires ScheduleFor(rs, members, f) && 1 <= r <= |rs|
    ensures DueAt(rs, f, r) + f == DueAt(rs, f, r + 1) <= U64_MAX
    ensures DueAt(rs, f, r) <= rs[|rs| - 1].cutoff
    ensures DueAt(rs, f, r + 1) > rs[|rs| - 1].cutoff <==> r == |rs|
  {
    Lattice(rs, members, f, r - 1, |rs| - 1);
    if r < |rs| {
      Lattice(rs, members, f, r, |rs| - 1);
      assert rs[r].cutoff == rs[r - 1].cutoff + f;
    } else {
      assert rs[|rs| - 1].cutoff + f <= U64_MAX;
    }
  }

  /** A bounded clear of limit n - 1 empties the contributor set. */
  lemma ClearIsEnough(c: Circle, n: nat)
    requires n > 0
    requires c.contributors == {} || |c.contributors| <= n - 1
    ensures ClearPrefix(c.contributors, n - 1) == {}
  {
    assert |ClearPrefix(c.contributors, n - 1)| == 0;
  }

  /** `advance_rosca_round` never fails before completion and leads exactly to the next scheduled round. */
  lemma AdvanceOnTrack(c: Circle, f: pos64, rs: seq<RoundInfo>, r: nat)
    requires Positioned(c, f, rs, r) && r <= |rs|
    requires c.contributors == {} || |c.contributors| <= |rs| - 1
    requires c.active.Some? && c.active.value.frequency == f
    ensures DueAt(rs, f, r + 1) <= U64_MAX
    ensures AdvanceRound(c) == Ok(NextRound(c, c.order.value, DueAt(rs, f, r + 1)))
    ensures OnTrack(AdvanceRound(c).value, f, rs, r + 1)
  {
    ClearIsEnough(c, |rs|);
    NextRoundOnTrack(c, f, rs, r);
    hide ScheduleFor, DueAt, Collecting;
  }

  /** The inline end of a round writes the same, except after the last round, which completes the circle. */
  lemma FinishOnTrack(c: Circle, d: Details, rs: seq<RoundInfo>, r: nat)
    requires Positioned(c, d.frequency, rs, r) && r <= |rs|
    requires c.contributors == {} || |c.contributors| <= |rs| - 1
    ensures DueAt(rs, d.frequency, r + 1) <= U64_MAX
    ensures FinishRound(c, d, c.order.value, c.nextPayBy.value, c.finalPayBy.value)
         == Ok(if r == |rs| then Complete(c) else NextRound(c, c.order.value, DueAt(rs, d.frequency, r + 1)))
  {
    ClearIsEnough(c, |rs|);
    NextDue(rs, c.Members(), d.frequency, r);
    hide ScheduleFor, DueAt, Collecting;
  }
}

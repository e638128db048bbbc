/** The payout order and the schedule of rounds published when a circle starts. */
module Schedule {
  import opened Prelude
  import opened Storage
  import opened Rules

  // ---------- compacting and shuffling ----------

  /** Compacting the slots keeps exactly their occupants. */
  lemma {:induction false} FilledElems(s: seq<Option<Account>>)
    ensures forall a :: a in Filled(s) <==> Some(a) in s
    ensures |Filled(s)| <= |s|
  {
    if s != [] {
      var init, last := s[..|s| - 1], s[|s| - 1];
      FilledElems(init);
      assert s == init + [last];
    }
  }

  /** No slot holder sits in two slots. */
  ghost predicate NoRepeats(s: seq<Option<Account>>) {
    forall i, j :: 0 <= i < j < |s| && s[i].Some? ==> s[i] != s[j]
  }

  lemma {:induction false} FilledDistinct(s: seq<Option<Account>>)
    requires NoRepeats(s)
    ensures Distinct(Filled(s))
  {
    if s != [] {
      var init, last := s[..|s| - 1], s[|s| - 1];
      FilledDistinct(init);
      FilledElems(init);
      if last.Some? {
        assert last !in init;
      }
    }
  }

  lemma {:induction false} FilledConcat(s: seq<Option<Account>>, t: seq<Option<Account>>)
    ensures Filled(s + t) == Filled(s) + Filled(t)
  {
    if t == [] {
      assert s + t == s;
    } else {
      assert (s + t)[..|s + t| - 1] == s + t[..|t| - 1];
      FilledConcat(s, t[..|t| - 1]);
    }
  }

  /** Reversing the slots before compacting them reverses the compacted list. */
  lemma {:induction false} FilledReverse(s: seq<Option<Account>>)
    ensures Filled(Reverse(s)) == Reverse(Filled(s))
  {
    if s != [] {
      var init, last := s[..|s| - 1], s[|s| - 1];
      FilledReverse(init);
      FilledConcat([last], Reverse(init));
      assert Reverse(s) == [last] + Reverse(init);
      assert [last][..0] == [];
      assert Filled(Reverse(s)) == Filled([last]) + Reverse(Filled(init));
      assert Filled([last]) == if last.Some? then [last.value] else [];
      if last.Some? {
        assert Filled(s)[..|Filled(s)| - 1] == Filled(init);
      }
    }
  }

  lemma DrawOne(available: seq<nat>, byte: nat, i: nat)
    requires available != []
    ensures var k := byte % |available|;
            Draw(available, Always(byte), i) == [available[k]] + Draw(available[..k] + available[k + 1..], Always(byte), i + 1)
  {
  }

  /** The removal loop uses every available index exactly once, whatever bytes it draws. */
  lemma {:induction false} DrawPermutes(available: seq<nat>, draws: nat -> nat, i: nat)
    ensures multiset(Draw(available, draws, i)) == multiset(available)
    decreases |available|
  {
    if available != [] {
      var k := draws(i) % |available|;
      var rest := available[..k] + available[k + 1..];
      DrawPermutes(rest, draws, i + 1);
      assert available == available[..k] + [available[k]] + available[k + 1..];
    }
  }

  ghost predicate Indices(s: seq<Account>, picks: seq<nat>) {
    forall i :: 0 <= i < |picks| ==> picks[i] < |s|
  }

  ghost function Read(s: seq<Account>, picks: seq<nat>): (r: seq<Account>)
    requires Indices(s, picks)
    ensures |r| == |picks| && forall i :: 0 <= i < |r| ==> r[i] == s[picks[i]]
  {
    seq(|picks|, i requires 0 <= i < |picks| => s[picks[i]])
  }

  /** Reading a list at the drawn indices permutes what the available indices read. */
  lemma ReadOne(s: seq<Account>, x: nat, picks: seq<nat>)
    requires x < |s| && Indices(s, picks)
    ensures Indices(s, [x] + picks)
    ensures multiset(Read(s, [x] + picks)) == multiset{s[x]} + multiset(Read(s, picks))
  {
    assert Read(s, [x] + picks) == [s[x]] + Read(s, picks);
  }

  lemma {:induction false} DrawReads(s: seq<Account>, available: seq<nat>, draws: nat -> nat, i: nat)
    requires Indices(s, available)
    ensures Indices(s, Draw(available, draws, i))
    ensures multiset(Read(s, Draw(available, draws, i))) == multiset(Read(s, available))
    decreases |available|
  {
    if available != [] {
      var k := draws(i) % |available|;
      var rest := available[..k] + available[k + 1..];
      ReadWithout(s, available, k);
      TakeOut(Read(s, available), k);
      DrawReads(s, rest, draws, i + 1);
      hide Indices, Read;
      ReadOne(s, available[k], Draw(rest, draws, i + 1));
    }
  }

  lemma ReadWithout(s: seq<Account>, picks: seq<nat>, j: nat)
    requires Indices(s, picks) && j < |picks|
    ensures Indices(s, picks[..j] + picks[j + 1..])
    ensures Read(s, picks[..j] + picks[j + 1..]) == Read(s, picks)[..j] + Read(s, picks)[j + 1..]
  {
  }

  lemma TakeOut<T>(s: seq<T>, j: nat)
    requires j < |s|
    ensures multiset(s) == multiset(s[..j] + s[j + 1..]) + multiset{s[j]}
    ensures multiset(s[..j] + s[j + 1..]) == multiset(s) - multiset{s[j]}
  {
    assert s == s[..j] + [s[j]] + s[j + 1..];
  }

  /** Shuffling is a permutation for every source of bytes. */
  lemma ShufflePermutes(order: seq<Account>, draws: nat -> nat)
    ensures multiset(Shuffle(order, draws)) == multiset(order)
  {
    var ids := seq(|order|, i => i);
    var picks := Draw(ids, draws, 0);
    DrawReads(order, ids, draws, 0);
    assert Shuffle(order, draws) == Read(order, picks);
    assert Read(order, ids) == order;
  }

  lemma PermutationKeeps(s: seq<Account>, t: seq<Account>)
    requires multiset(s) == multiset(t)
    ensures |s| == |t| && Elems(s) == Elems(t)
    ensures Distinct(s) ==> Distinct(t)
  {
    assert |s| == |multiset(s)| == |multiset(t)| == |t|;
    forall x ensures x in s <==> x in t {
      assert x in s <==> x in multiset(s);
      assert x in t <==> x in multiset(t);
    }
    if Distinct(s) {
      forall i, j | 0 <= i < j < |t| ensures t[i] != t[j] {
        assert t == t[..i] + [t[i]] + t[i + 1..j] + [t[j]] + t[j + 1..];
        assert multiset(t)[t[i]] >= if t[i] == t[j] then 2 else 1;
        DistinctCount(s, t[i]);
      }
    }
  }

  lemma {:induction false} DistinctCount(s: seq<Account>, x: Account)
    requires Distinct(s)
    ensures multiset(s)[x] <= 1
  {
    if s != [] {
      var init := s[..|s| - 1];
      DistinctCount(init, x);
      assert s == init + [s[|s| - 1]];
      if s[|s| - 1] == x {
        assert x !in init;
      }
    }
  }

  // ---------- the schedule ----------

  /** Everyone but `x`, once each. */
  lemma {:induction false} WithoutFacts(s: seq<Account>, x: Account)
    requires Distinct(s)
    ensures Elems(Without(s, x)) == Elems(s) - {x}
    ensures Distinct(Without(s, x))
    ensures |Without(s, x)| == |s| - (if x in s then 1 else 0)
  {
    if s != [] {
      var init, last := s[..|s| - 1], s[|s| - 1];
      WithoutFacts(init, x);
      assert s == init + [last];
      assert last !in Elems(init);
      assert Elems(s) == Elems(init) + {last};
      var w := Without(init, x);
      if last != x {
        assert Elems(w + [last]) == Elems(w) + {last};
        assert last !in Elems(w);
      }
    }
  }

  lemma WithoutPush(s: seq<Account>, a: Account, x: Account)
    ensures Without(s + [a], x) == Without(s, x) + if a != x then [a] else []
  {
    assert (s + [a])[..|s|] == s;
  }

  lemma {:induction false} WithoutAbsent(s: seq<Account>, x: Account)
    requires x !in s
    ensures Without(s, x) == s
  {
    if s != [] {
      WithoutAbsent(s[..|s| - 1], x);
    }
  }

  /** Leaving somebody out keeps the order of the others. */
  lemma {:induction false} WithoutAt(s: seq<Account>, i: nat)
    requires Distinct(s) && i < |s|
    ensures Without(s, s[i]) == s[..i] + s[i + 1..]
  {
    hide Without;
    var init, last := s[..|s| - 1], s[|s| - 1];
    assert s == init + [last];
    WithoutPush(init, last, s[i]);
    if i == |s| - 1 {
      WithoutAbsent(init, last);
    } else {
      WithoutAt(init, i);
      assert s[..i] == init[..i] && s[i + 1..] == init[i + 1..] + [last];
    }
  }

  ghost predicate Fits(cfg: Config, n: nat) {
    n <= cfg.maxParticipants && n <= cfg.maxInvited + 1
  }

  /** The round-building loop in closed form: which round pays whom, when, and exactly when it overflows. */
  lemma {:induction false} RoundsClosedForm(cfg: Config, order: seq<Account>, t0: u64, f: pos64, k: nat)
    requires Distinct(order) && Fits(cfg, |order|) && k <= |order|
    ensures RoundsUpTo(cfg, order, t0, f, k).Ok? <==> t0 + (k + 1) * f <= U64_MAX
    ensures RoundsUpTo(cfg, order, t0, f, k).Err? ==> RoundsUpTo(cfg, order, t0, f, k).error == ArithmeticOverflow
    ensures RoundsUpTo(cfg, order, t0, f, k).Ok? ==>
              var p := RoundsUpTo(cfg, order, t0, f, k).value;
              && p.cutoff == t0 + (k + 1) * f
              && forall j :: 0 <= j < k ==>
                   && p.rounds[j].number == j + 1
                   && p.rounds[j].cutoff == t0 + (j + 1) * f
                   && p.rounds[j].recipient == order[|order| - 1 - j]
                   && p.rounds[j].expected == Without(order, order[|order| - 1 - j])
  {
    hide Without, Distinct, Elems;
    if k > 0 {
      RoundsClosedForm(cfg, order, t0, f, k - 1);
      WithoutFacts(order, order[|order| - k]);
      assert (k + 1) * f == k * f + f;
    }
  }

  lemma {:induction false} AddTimesClosedForm(t: u64, f: pos64, k: nat)
    ensures AddTimes(t, f, k).Ok? <==> t + k * f <= U64_MAX
    ensures AddTimes(t, f, k).Ok? ==> AddTimes(t, f, k).value == t + k * f
    ensures AddTimes(t, f, k).Err? ==> AddTimes(t, f, k).error == ArithmeticOverflow
  {
    if k > 0 {
      AddTimesClosedForm(t, f, k - 1);
      assert k * f == (k - 1) * f + f;
    }
  }

  ghost function Recipients(rs: seq<RoundInfo>): (r: seq<Account>)
    ensures |r| == |rs|
    ensures forall k :: 0 <= k < |rs| ==> r[k] == rs[k].recipient
  {
    seq(|rs|, k requires 0 <= k < |rs| => rs[k].recipient)
  }

  /** A schedule for `members`: numbered from one, one frequency apart with room for one more step,
      every member recipient exactly once and expected to contribute in every other round. */
  ghost predicate ScheduleFor(rs: seq<RoundInfo>, members: set<Account>, f: pos64) {
    && 1 <= |rs| <= U32_MAX
    && (forall k :: 0 <= k < |rs| ==> rs[k].number == k + 1)
    && (forall k :: 0 < k < |rs| ==> rs[k].cutoff == rs[k - 1].cutoff + f)
    && rs[|rs| - 1].cutoff + f <= U64_MAX
    && Distinct(Recipients(rs))
    && Elems(Recipients(rs)) == members
    && (forall k :: 0 <= k < |rs| ==>
          && Distinct(rs[k].expected)
          && Elems(rs[k].expected) == members - {rs[k].recipient})
  }

  lemma ScheduleSize(rs: seq<RoundInfo>, members: set<Account>, f: pos64)
    requires ScheduleFor(rs, members, f)
    ensures |members| == |rs|
    ensures forall k :: 0 <= k < |rs| ==> rs[k].recipient in members && |rs[k].expected| == |rs| - 1
    ensures forall p :: p in members ==> exists k :: 0 <= k < |rs| && rs[k].recipient == p
  {
    DistinctCard(Recipients(rs));
    forall k | 0 <= k < |rs| ensures rs[k].recipient in members && |rs[k].expected| == |rs| - 1 {
      assert Recipients(rs)[k] in Elems(Recipients(rs));
      DistinctCard(rs[k].expected);
    }
    forall p | p in members ensures exists k :: 0 <= k < |rs| && rs[k].recipient == p {
      assert p in Recipients(rs);
    }
  }

  /** Cutoffs form the lattice `first + k * f`, so they increase strictly. */
  lemma {:induction false} Lattice(rs: seq<RoundInfo>, members: set<Account>, f: pos64, i: nat, j: nat)
    requires ScheduleFor(rs, members, f)
    requires i <= j < |rs|
    ensures rs[j].cutoff == rs[i].cutoff + (j - i) * f
    ensures i < j ==> rs[i].cutoff < rs[j].cutoff
    decreases j
  {
    if i < j {
      Lattice(rs, members, f, i, j - 1);
      assert (j - i) * f == (j - 1 - i) * f + f;
    }
  }
}

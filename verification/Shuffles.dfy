/** Which order a shuffle yields: draw by draw, for every source of bytes and for the one that the pallet uses. */
module Shuffles {
  import opened Prelude
  import opened Storage
  import opened Rules
  import opened Schedule

  /** The indices below n that have not been drawn, in increasing order. */
  ghost function Left(n: nat, drawn: set<nat>): seq<nat> {
    if n == 0 then [] else Left(n - 1, drawn) + if n - 1 in drawn then [] else [n - 1]
  }

  lemma {:induction false} LeftLists(n: nat, drawn: set<nat>)
    ensures forall i: nat :: i in Left(n, drawn) <==> i < n && i !in drawn
    ensures forall i, j :: 0 <= i < j < |Left(n, drawn)| ==> Left(n, drawn)[i] < Left(n, drawn)[j]
  {
    if n > 0 {
      LeftLists(n - 1, drawn);
      var before := Left(n - 1, drawn);
      assert forall i :: 0 <= i < |before| ==> before[i] in before;
    }
  }

  lemma {:induction false} AllLeft(n: nat)
    ensures Left(n, {}) == seq(n, i => i)
  {
    if n > 0 {
      AllLeft(n - 1);
    }
  }

  lemma {:induction false} LeftIgnores(n: nat, drawn: set<nat>, x: nat)
    requires n <= x
    ensures Left(n, drawn + {x}) == Left(n, drawn)
  {
    if n > 0 {
      LeftIgnores(n - 1, drawn, x);
    }
  }

  lemma TakeFromFront(s: seq<nat>, y: nat, k: nat)
    requires k < |s|
    ensures (s + [y])[..k] + (s + [y])[k + 1..] == s[..k] + s[k + 1..] + [y]
    ensures (s + [y])[k] == s[k]
  {
  }

  lemma TakeLast(s: seq<nat>, y: nat)
    ensures (s + [y])[..|s|] + (s + [y])[|s| + 1..] == s
  {
  }

  lemma LeftBelow(n: nat, drawn: set<nat>, k: nat)
    requires k < |Left(n, drawn)|
    ensures Left(n, drawn)[k] < n
  {
    LeftLists(n, drawn);
    assert Left(n, drawn)[k] in Left(n, drawn);
  }

  /** Taking one index out of those left leaves those left after it is drawn. */
  lemma {:induction false} DrawnOut(n: nat, drawn: set<nat>, k: nat)
    requires k < |Left(n, drawn)|
    ensures var left := Left(n, drawn); left[..k] + left[k + 1..] == Left(n, drawn + {left[k]})
  {
    var before := Left(n - 1, drawn);
    if k < |before| {
      DrawnOut(n - 1, drawn, k);
      LeftBelow(n - 1, drawn, k);
      if n - 1 in drawn {
        assert Left(n, drawn) == before;
      } else {
        TakeFromFront(before, n - 1, k);
      }
      LeftStep(n, drawn + {before[k]});
    } else {
      LeftIgnores(n - 1, drawn, n - 1);
      LeftStep(n, drawn + {n - 1});
      TakeLast(before, n - 1);
    }
  }

  lemma LeftStep(n: nat, drawn: set<nat>)
    requires n > 0
    ensures Left(n, drawn) == if n - 1 in drawn then Left(n - 1, drawn) else Left(n - 1, drawn) + [n - 1]
  {
  }

  /** The picks are drawn one by one: the j-th is the one at place draws(j), modulo their number, of those left. */
  ghost predicate OneByOne(n: nat, drawn: set<nat>, draws: nat -> nat, i: nat, picks: seq<nat>)
    decreases |picks|
  {
    var left := Left(n, drawn);
    && |picks| == |left|
    && (picks != [] ==> picks[0] == left[draws(i) % |left|] && OneByOne(n, drawn + {picks[0]}, draws, i + 1, picks[1..]))
  }

  lemma {:induction false} DrawsOneByOne(n: nat, drawn: set<nat>, draws: nat -> nat, i: nat)
    ensures OneByOne(n, drawn, draws, i, Draw(Left(n, drawn), draws, i))
    decreases |Left(n, drawn)|
  {
    var left := Left(n, drawn);
    if left != [] {
      var k := draws(i) % |left|;
      DrawnOut(n, drawn, k);
      var rest := Left(n, drawn + {left[k]});
      assert |rest| == |left| - 1;
      DrawsOneByOne(n, drawn + {left[k]}, draws, i + 1);
      hide Left;
      assert Draw(left, draws, i) == [left[k]] + Draw(rest, draws, i + 1);
      assert Draw(left, draws, i)[1..] == Draw(rest, draws, i + 1);
    }
  }

  /** `result` is what drawing without replacement from `order` yields. */
  ghost predicate DrawnFrom(order: seq<Account>, draws: nat -> nat, result: seq<Account>) {
    exists picks: seq<nat> ::
      && OneByOne(|order|, {}, draws, 0, picks)
      && |result| == |picks| && forall j :: 0 <= j < |picks| ==> picks[j] < |order| && result[j] == order[picks[j]]
  }

  /** The shuffle draws without replacement, for every source of bytes. */
  lemma ShuffleDraws(order: seq<Account>, draws: nat -> nat)
    ensures DrawnFrom(order, draws, Shuffle(order, draws))
    ensures order != [] ==> Shuffle(order, draws)[0] == order[draws(0) % |order|]
  {
    AllLeft(|order|);
    DrawsOneByOne(|order|, {}, draws, 0);
    var picks := Draw(seq(|order|, i => i), draws, 0);
    hide Left, OneByOne;
    DrawReads(order, seq(|order|, i => i), draws, 0);
    forall j | 0 <= j < |picks| ensures picks[j] < |order| && Shuffle(order, draws)[j] == order[picks[j]] {}
  }

  lemma {:induction false} OnlyOneWay(n: nat, drawn: set<nat>, draws: nat -> nat, i: nat, picks: seq<nat>, others: seq<nat>)
    requires OneByOne(n, drawn, draws, i, picks) && OneByOne(n, drawn, draws, i, others)
    ensures picks == others
    decreases |picks|
  {
    if picks != [] {
      OnlyOneWay(n, drawn + {picks[0]}, draws, i + 1, picks[1..], others[1..]);
      assert picks == [picks[0]] + picks[1..] && others == [others[0]] + others[1..];
    }
  }

  /** The draws leave no choice. */
  lemma DrawnOnce(order: seq<Account>, draws: nat -> nat, result: seq<Account>, other: seq<Account>)
    requires DrawnFrom(order, draws, result) && DrawnFrom(order, draws, other)
    ensures result == other
  {
    hide OneByOne;
    var picks :| OneByOne(|order|, {}, draws, 0, picks)
                 && |result| == |picks| && forall j :: 0 <= j < |picks| ==> picks[j] < |order| && result[j] == order[picks[j]];
    var others :| OneByOne(|order|, {}, draws, 0, others)
                  && |other| == |others| && forall j :: 0 <= j < |others| ==> others[j] < |order| && other[j] == order[others[j]];
    OnlyOneWay(|order|, {}, draws, 0, picks, others);
  }

  /** Draws made later do not depend on earlier bytes. */
  lemma {:induction false} DrawAgrees(available: seq<nat>, f: nat -> nat, g: nat -> nat, i: nat)
    requires forall x :: x >= i ==> f(x) == g(x)
    ensures Draw(available, f, i) == Draw(available, g, i)
    decreases |available|
  {
    if available != [] {
      var k := f(i) % |available|;
      DrawAgrees(available[..k] + available[k + 1..], f, g, i + 1);
    }
  }

  lemma MatchFirst(read: seq<Account>, target: seq<Account>) returns (k: nat)
    requires multiset(read) == multiset(target) && read != []
    ensures |target| == |read| && k < |read| && read[k] == target[0]
    ensures multiset(read[..k] + read[k + 1..]) == multiset(target[1..])
  {
    SameLength(read, target);
    k := PlaceOf(read, target, target[0]);
    RestMatches(read, target, k);
  }

  lemma SameLength(read: seq<Account>, target: seq<Account>)
    requires multiset(read) == multiset(target)
    ensures |read| == |target|
  {
    assert |multiset(read)| == |read|;
  }

  lemma PlaceOf(read: seq<Account>, target: seq<Account>, x: Account) returns (k: nat)
    requires multiset(read) == multiset(target) && x in target
    ensures k < |read| && read[k] == x
  {
    assert x in multiset(target);
    k :| k < |read| && read[k] == x;
  }

  lemma RestMatches(read: seq<Account>, target: seq<Account>, k: nat)
    requires multiset(read) == multiset(target) && k < |read| && target != [] && read[k] == target[0]
    ensures multiset(read[..k] + read[k + 1..]) == multiset(target[1..])
  {
    assert multiset(read[..k] + read[k + 1..]) == multiset(target) - multiset{target[0]} by {
      TakeOut(read, k);
    }
    assert multiset(target[1..]) == multiset(target) - multiset{target[0]} by {
      assert target == [target[0]] + target[1..];
    }
  }

  /** Some index that is available reads the first of the target, and the others read the rest. */
  lemma FindFirst(s: seq<Account>, available: seq<nat>, target: seq<Account>) returns (k: nat)
    requires Indices(s, available) && multiset(Read(s, available)) == multiset(target) && available != []
    ensures |target| == |available| && k < |available| && available[k] < |s| && s[available[k]] == target[0]
    ensures var rest := available[..k] + available[k + 1..]; Indices(s, rest) && multiset(Read(s, rest)) == multiset(target[1..])
  {
    hide Read;
    k := MatchFirst(Read(s, available), target);
    ReadWithout(s, available, k);
  }

  lemma DrawHead(available: seq<nat>, draws: nat -> nat, i: nat, k: nat)
    requires k < |available| && draws(i) % |available| == k
    ensures Draw(available, draws, i) == [available[k]] + Draw(available[..k] + available[k + 1..], draws, i + 1)
  {
  }

  lemma ReadHead(s: seq<Account>, i: nat, picks: seq<nat>)
    requires i < |s| && Indices(s, picks)
    ensures Indices(s, [i] + picks) && Read(s, [i] + picks) == [s[i]] + Read(s, picks)
  {
  }

  /** Every arrangement of what is available can be drawn. */
  lemma {:induction false} EveryDraw(s: seq<Account>, available: seq<nat>, target: seq<Account>, i: nat) returns (draws: nat -> nat)
    requires Indices(s, available) && multiset(Read(s, available)) == multiset(target)
    ensures Indices(s, Draw(available, draws, i)) && Read(s, Draw(available, draws, i)) == target
    decreases |available|
  {
    hide Draw, Read, Indices;
    if available == [] {
      draws := _ => 0;
      NothingToDraw(s, target, draws, i);
    } else {
      var k := FindFirst(s, available, target);
      var rest := available[..k] + available[k + 1..];
      var later := EveryDraw(s, rest, target[1..], i + 1);
      draws := x => if x == i then k else later(x);
      DrawAgrees(rest, draws, later, i + 1);
      SmallMod(k, |available|);
      DrawHead(available, draws, i, k);
      ReadHead(s, available[k], Draw(rest, draws, i + 1));
      assert target == [target[0]] + target[1..];
    }
  }

  lemma NothingToDraw(s: seq<Account>, target: seq<Account>, draws: nat -> nat, i: nat)
    requires Indices(s, []) && multiset(Read(s, [])) == multiset(target)
    ensures Indices(s, Draw([], draws, i)) && Read(s, Draw([], draws, i)) == target
  {
    assert |multiset(target)| == |target|;
  }

  lemma SmallMod(k: nat, n: nat)
    requires k < n
    ensures k % n == k
  {
  }

  /** Every permutation of the participants is the shuffle for some sequence of draws. */
  lemma EveryOrder(order: seq<Account>, target: seq<Account>)
    requires multiset(target) == multiset(order)
    ensures exists draws: nat -> nat :: Shuffle(order, draws) == target
  {
    var ids := seq(|order|, i => i);
    assert Read(order, ids) == order;
    var draws := EveryDraw(order, ids, target, 0);
    assert Shuffle(order, draws) == Read(order, Draw(ids, draws, 0));
  }

  /** With one byte for all draws they are not all within reach: of four participants, the order that swaps the last two
      comes from no byte. The first draw would need an even byte and the third an odd one. */
  lemma OneByteIsNotEnough(a: Account, b: Account, c: Account, d: Account, byte: nat)
    requires Distinct([a, b, c, d])
    ensures Shuffle([a, b, c, d], Always(byte)) != [a, b, d, c]
  {
    hide Draw, Shuffle, Always;
    var order := [a, b, c, d];
    var ids := seq(|order|, i => i);
    assert ids == [0, 1, 2, 3];
    FirstTwo(byte);
    ShuffleReads(order, Always(byte));
    LastTwoStay(order, Draw(ids, Always(byte), 0), Shuffle(order, Always(byte)));
  }

  lemma LastTwoStay(order: seq<Account>, picks: seq<nat>, result: seq<Account>)
    requires |order| == |picks| == |result| == 4 && Distinct(order)
    requires forall j :: 0 <= j < 4 ==> picks[j] < 4 && result[j] == order[picks[j]]
    requires picks[0] == 0 && picks[1] == 1 ==> picks[2] == 2
    ensures result != [order[0], order[1], order[3], order[2]]
  {
    if result[0] == order[0] && result[1] == order[1] {
      assert picks[0] == 0 && picks[1] == 1;
      assert result[2] == order[2];
    }
  }

  lemma ShuffleReads(order: seq<Account>, draws: nat -> nat)
    ensures var picks := Draw(seq(|order|, i => i), draws, 0);
            forall j :: 0 <= j < |order| ==> picks[j] < |order| && Shuffle(order, draws)[j] == order[picks[j]]
  {
    hide Draw;
    var ids := seq(|order|, i => i);
    var picks := Draw(ids, draws, 0);
    forall j | 0 <= j < |order| ensures picks[j] < |order| {
      assert picks[j] in ids;
    }
  }

  lemma FirstTwo(byte: nat)
    ensures var picks := Draw([0, 1, 2, 3], Always(byte), 0); picks[0] == 0 && picks[1] == 1 ==> picks[2] == 2
  {
    hide Draw, Always;
    DrawOne([0, 1, 2, 3], byte, 0);
    if byte % 4 == 0 {
      Even(byte);
      DrawTail([0, 1, 2, 3]);
      NextTwo(byte);
    }
  }

  lemma NextTwo(byte: nat)
    requires byte % 2 == 0
    ensures var picks := Draw([1, 2, 3], Always(byte), 1); picks[0] == 1 ==> picks[1] == 2
  {
    hide Draw, Always;
    DrawOne([1, 2, 3], byte, 1);
    if byte % 3 == 0 {
      DrawTail([1, 2, 3]);
      DrawOne([2, 3], byte, 2);
    }
  }

  lemma DrawTail(s: seq<nat>)
    requires s != []
    ensures s[..0] + s[1..] == s[1..]
    ensures s == [0, 1, 2, 3] ==> s[1..] == [1, 2, 3]
    ensures s == [1, 2, 3] ==> s[1..] == [2, 3]
  {
  }

  lemma Even(byte: nat)
    requires byte % 4 == 0
    ensures byte % 2 == 0
  {
    var q := byte / 4;
    assert byte == 4 * q;
    assert byte == 2 * (2 * q);
  }
}

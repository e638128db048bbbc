/** Option, Result, machine integers and the sequence and map facts shared by the other modules. */
module Prelude {

  type u32 = x: int | 0 <= x < 0x1_0000_0000
  type u64 = x: int | 0 <= x < 0x1_0000_0000_0000_0000
  type pos64 = x: int | 0 < x < 0x1_0000_0000_0000_0000 witness 1

  const U32_MAX: u32 := 0xFFFF_FFFF
  const U64_MAX: u64 := 0xFFFF_FFFF_FFFF_FFFF

  /** The pallet's errors, the ledger's one error, and two outcomes of FRAME itself:
      `BadOrigin` when no key can sign for the account, `Undecodable` when an argument does
      not fit its bounded type. `Panic` is a Rust index or arithmetic panic. */
  datatype Error =
    | ArithmeticOverflow | ArithmeticUnderflow | ArithmeticError
    | ContributionAmountMustBePositive | FrequencyMustBePositive | StartByTimestampMustBeFuture
    | TooManyProposedParticipants | TooManyRounds | PositionTooLarge | RoscaNotFound
    | PositionAlreadyFilled | AlreadyJoined | RoscaAlreadyActive | SecurityDepositNotFound
    | SecurityDepositIsZero | AllPositionsFilled | RoscaParticipantsNotFound | NotAParticipant
    | ParticipantThresholdNotMet | RoscaParticipantCountNotFound | RoscaNotActive
    | CantContributeToSelf | NoEligibleClaimant | AlreadyContributed | NoNextPayByTimestamp
    | FinalPayByTimestampNotFound | FinalPayByTimestampMustBePast | RoscaAlreadyCompleted
    | NotInvited | CantInviteSelf | ThresholdTooHigh | RoscaStillActive
    | FundsUnavailable | BadOrigin | Undecodable | Panic

  datatype Result<+T> = Ok(value: T) | Err(error: Error) {
    predicate IsFailure() { Err? }

    function PropagateFailure<U>(): Result<U>
      requires Err?
    {
      Err(error)
    }

    function Extract(): T
      requires Ok?
    {
      value
    }
  }

  datatype Option<+T> = None | Some(value: T) {
    function OkOr(e: Error): Result<T> {
      if Some? then Ok(value) else Err(e)
    }

    function Or(other: Option<T>): Option<T> {
      if Some? then this else other
    }
  }

  function Require(condition: bool, e: Error): Result<()> {
    if condition then Ok(()) else Err(e)
  }

  function CheckedAdd32(x: u32, y: u32): Result<u32> {
    if x + y <= U32_MAX then Ok(x + y) else Err(ArithmeticOverflow)
  }

  function CheckedAdd64(x: u64, y: u64): Result<u64> {
    if x + y <= U64_MAX then Ok(x + y) else Err(ArithmeticOverflow)
  }

  function Min(x: nat, y: nat): nat {
    if x <= y then x else y
  }

  // ---------- sequences ----------

  predicate Distinct<T(==)>(s: seq<T>) {
    forall i, j :: 0 <= i < j < |s| ==> s[i] != s[j]
  }

  ghost function Elems<T>(s: seq<T>): set<T> {
    set x | x in s
  }

  /** Pigeonhole: a sequence without repetitions has as many elements as its set. */
  lemma {:induction false} DistinctCard<T>(s: seq<T>)
    requires Distinct(s)
    ensures |Elems(s)| == |s|
  {
    if s != [] {
      var init, last := s[..|s| - 1], s[|s| - 1];
      DistinctCard(init);
      assert Elems(s) == Elems(init) + {last};
      assert last !in Elems(init);
    }
  }

  lemma SubsetCard<T>(a: set<T>, b: set<T>)
    requires a <= b
    ensures |a| <= |b|
    ensures |a| == |b| ==> a == b
    ensures |b - a| == |b| - |a|
  {
    assert b == a + (b - a);
    if |a| == |b| {
      assert |b - a| == 0;
      assert b - a == {};
    }
  }

  /** `rotate_right(1)`: the last element moves to the front. */
  function RotateRight<T>(s: seq<T>): (r: seq<T>)
    requires |s| > 0
    ensures |r| == |s|
  {
    [s[|s| - 1]] + s[..|s| - 1]
  }

  function Reverse<T>(s: seq<T>): (r: seq<T>)
    ensures |r| == |s|
    ensures forall i :: 0 <= i < |s| ==> r[i] == s[|s| - 1 - i]
  {
    if s == [] then [] else [s[|s| - 1]] + Reverse(s[..|s| - 1])
  }

  // ---------- sums over finite maps ----------

  ghost function Sum<K>(m: map<K, nat>): nat
    decreases |m|
  {
    if m == map[] then 0
    else
      var k :| k in m;
      assert |m - {k}| == |m| - 1 by { assert (m - {k}).Keys == m.Keys - {k}; }
      m[k] + Sum(m - {k})
  }

  /** The sum does not depend on the order in which keys are taken out. */
  lemma {:induction false} SumRemove<K>(m: map<K, nat>, k: K)
    requires k in m
    ensures Sum(m) == m[k] + Sum(m - {k})
    decreases |m|
  {
    var h :| h in m && Sum(m) == m[h] + Sum(m - {h});
    if h != k {
      assert (m - {h}).Keys == m.Keys - {h};
      assert (m - {k}).Keys == m.Keys - {k};
      SumRemove(m - {h}, k);
      SumRemove(m - {k}, h);
      assert m - {h} - {k} == m - {k} - {h};
    }
  }

  function Get<K, V>(m: map<K, V>, k: K, d: V): V {
    if k in m then m[k] else d
  }

  /** Changing one entry changes the sum by exactly that entry's change. */
  lemma SumUpdate<K>(m: map<K, nat>, k: K, v: nat)
    ensures Sum(m[k := v]) == Sum(m) - Get(m, k, 0) + v
    ensures Get(m, k, 0) <= Sum(m)
  {
    var m' := m[k := v];
    SumRemove(m', k);
    if k in m {
      SumRemove(m, k);
      assert m' - {k} == m - {k};
    } else {
      assert m' - {k} == m;
    }
  }
}

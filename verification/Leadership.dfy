/**
 The weighted leader schedule of crates/ego-consensus-core/src/bft.rs: a walk over the prefix
 sums of the validators' weights picks the proposer of each (height, round).
 */
module Leadership {
  import opened Common

  type Address = nat
  type Weights = seq<U64>

  function Sum(ws: Weights): nat {
    if ws == [] then 0 else Sum(ws[..|ws| - 1]) + ws[|ws| - 1]
  }

  /** What the first `i` validators weigh together. */
  function Prefix(ws: Weights, i: nat): (sum: nat)
    requires i <= |ws|
    ensures i == |ws| ==> sum == Sum(ws)
  {
    assert ws[..|ws|] == ws;
    Sum(ws[..i])
  }

  lemma PrefixStep(ws: Weights, i: nat)
    requires i < |ws|
    ensures Prefix(ws, i + 1) == Prefix(ws, i) + ws[i]
  {
    assert ws[..i + 1][..i] == ws[..i];
  }

  lemma {:induction false} PrefixGrows(ws: Weights, i: nat, j: nat)
    requires i <= j <= |ws|
    ensures Prefix(ws, i) <= Prefix(ws, j) <= Sum(ws)
    decreases |ws| - i
  {
    if i < j {
      PrefixStep(ws, i);
      PrefixGrows(ws, i + 1, j);
    } else if j < |ws| {
      PrefixStep(ws, j);
      PrefixGrows(ws, j + 1, j + 1);
    }
  }

  /** The fold with saturating addition. */
  method TotalWeight(ws: Weights) returns (total: U64)
    ensures total == Min(Sum(ws), MAX_U64)
  {
    total := 0;
    for i := 0 to |ws|
      invariant total == Min(Prefix(ws, i), MAX_U64)
    {
      PrefixStep(ws, i);
      total := SatAdd(total, ws[i]);
    }
  }

  /** Validator `i` holds the pick: it falls within its stretch of the prefix sums. */
  predicate Holds(ws: Weights, i: nat, pick: nat) {
    i < |ws| && Prefix(ws, i) <= pick < Prefix(ws, i + 1)
  }

  lemma OneHolder(ws: Weights, i: nat, j: nat, pick: nat)
    requires Holds(ws, i, pick) && Holds(ws, j, pick)
    ensures i == j
  {
    if i < j {
      PrefixGrows(ws, i + 1, j);
    } else if j < i {
      PrefixGrows(ws, j + 1, i);
    }
  }

  function TurnOf(height: U64, round: U32): U64 {
    (height + round) % (MAX_U64 + 1)
  }

  function Total(ws: Weights): U64 {
    Min(Sum(ws), MAX_U64)
  }

  /** The rule as a specification: plain rotation without usable weights, otherwise whoever
      holds the turn's remainder. */
  ghost predicate Elects(validators: seq<Address>, ws: Weights, turn: U64, i: nat) {
    && i < |validators|
    && if |ws| != |validators| || Sum(ws) == 0 then i == turn % |validators|
       else Holds(ws, i, turn % Total(ws))
  }

  /** Every turn of a non-empty committee elects exactly one position, and the fallback behind
      the walk is never reached. */
  method ProposerAt(validators: seq<Address>, ws: Weights, height: U64,
      round: U32) returns (leader: Option<Address>, ghost at: nat)
    ensures leader.None? <==> validators == []
    ensures leader.Some? ==> Elects(validators, ws, TurnOf(height, round), at) && leader.value == validators[at]
  {
    at := 0;
    if |validators| == 0 {
      return None, 0;
    }
    var turn := TurnOf(height, round);
    if |ws| != |validators| {
      return Some(validators[turn % |validators|]), turn % |validators|;
    }
    var total := TotalWeight(ws);
    if total == 0 {
      return Some(validators[turn % |validators|]), turn % |validators|;
    }
    var pick := turn % total;
    ghost var whole := pick;
    for i := 0 to |ws|
      invariant 0 <= pick == whole - Prefix(ws, i) && whole < Sum(ws)
    {
      PrefixStep(ws, i);
      if pick < ws[i] {
        return Some(validators[i]), i;
      }
      pick := pick - ws[i];
    }
    assert false;
  }

  lemma ElectsOne(validators: seq<Address>, ws: Weights, turn: U64, i: nat, j: nat)
    requires Elects(validators, ws, turn, i) && Elects(validators, ws, turn, j)
    ensures i == j
  {
    if |ws| == |validators| && Sum(ws) != 0 {
      OneHolder(ws, i, j, turn % Total(ws));
    }
  }

  lemma {:induction false} SomeoneHolds(ws: Weights, n: nat, pick: nat) returns (i: nat)
    requires n <= |ws| && pick < Prefix(ws, n)
    ensures Holds(ws, i, pick)
  {
    PrefixStep(ws, n - 1);
    if pick < Prefix(ws, n - 1) {
      i := SomeoneHolds(ws, n - 1, pick);
    } else {
      i := n - 1;
    }
  }

  lemma SomeoneLeads(validators: seq<Address>, ws: Weights, turn: U64) returns (i: nat)
    requires validators != []
    ensures Elects(validators, ws, turn, i)
  {
    if |ws| != |validators| || Sum(ws) == 0 {
      i := turn % |validators|;
    } else {
      i := SomeoneHolds(ws, |ws|, turn % Total(ws));
    }
  }

  // ----- proportional leadership

  /** How many of the `n` turns from `from` on fall to position `i`. */
  ghost function Led(ws: Weights, i: nat, from: nat, n: nat): nat
    requires Sum(ws) > 0
  {
    if n == 0 then 0
    else Led(ws, i, from, n - 1) + Once(ws, i, from + n - 1)
  }

  ghost function Once(ws: Weights, i: nat, turn: nat): nat
    requires Sum(ws) > 0
  {
    if Holds(ws, i, turn % Sum(ws)) then 1 else 0
  }

  lemma OnceEarly(ws: Weights, i: nat, turn: nat)
    requires i < |ws| && turn < Sum(ws)
    ensures Once(ws, i, turn) == if Prefix(ws, i) <= turn < Prefix(ws, i) + ws[i] then 1 else 0
  {
    PrefixStep(ws, i);
    Remainder(turn, Sum(ws), 0, turn);
  }

  lemma OnceAgain(ws: Weights, i: nat, turn: nat)
    requires Sum(ws) > 0
    ensures Once(ws, i, turn + Sum(ws)) == Once(ws, i, turn)
  {
    SameRemainder(turn, Sum(ws));
  }

  lemma SameRemainder(a: nat, n: nat)
    requires n > 0
    ensures (a + n) % n == a % n
  {
    var q, r := a / n, a % n;
    assert a + n == n * (q + 1) + r by { assert a == n * q + r; }
    Remainder(a + n, n, q + 1, r);
  }

  lemma AtLeastOnce(n: nat, k: nat)
    requires k > 0
    ensures n * k >= n
  {
    assert n * k == n + n * (k - 1);
  }

  lemma Remainder(a: nat, n: nat, q: nat, r: nat)
    requires 0 <= r < n && a == n * q + r
    ensures a % n == r
  {
    var q', r' := a / n, a % n;
    assert a == n * q' + r';
    if q > q' {
      assert n * q == n * q' + n * (q - q');
      AtLeastOnce(n, q - q');
    } else if q < q' {
      assert n * q' == n * q + n * (q' - q);
      AtLeastOnce(n, q' - q);
    }
  }

  /** The first `n` turns of a cycle give position `i` its stretch, as far as they reach. */
  lemma {:induction false} LedFromStart(ws: Weights, i: nat, n: nat)
    requires i < |ws| && 0 < Sum(ws) && n <= Sum(ws)
    ensures Led(ws, i, 0, n) ==
            if n <= Prefix(ws, i) then 0 else if n < Prefix(ws, i) + ws[i] then n - Prefix(ws, i) else ws[i]
  {
    if n > 0 {
      LedFromStart(ws, i, n - 1);
      OnceEarly(ws, i, n - 1);
    }
  }

  lemma {:induction false} LedSplit(ws: Weights, i: nat, from: nat, n: nat)
    requires Sum(ws) > 0 && n > 0
    ensures Led(ws, i, from, n) == Once(ws, i, from) + Led(ws, i, from + 1, n - 1)
  {
    if n > 1 {
      LedSplit(ws, i, from, n - 1);
    }
  }

  /** Sliding the window by one turn changes nothing: the turn it gains is the turn it loses. */
  lemma LedSlides(ws: Weights, i: nat, from: nat)
    requires Sum(ws) > 0
    ensures Led(ws, i, from + 1, Sum(ws)) == Led(ws, i, from, Sum(ws))
  {
    LedSplit(ws, i, from, Sum(ws));
    OnceAgain(ws, i, from);
  }

  lemma {:induction false} LedAnywhere(ws: Weights, i: nat, from: nat)
    requires i < |ws| && Sum(ws) > 0
    ensures Led(ws, i, from, Sum(ws)) == ws[i]
  {
    if from == 0 {
      PrefixStep(ws, i);
      PrefixGrows(ws, i + 1, i + 1);
      LedFromStart(ws, i, Sum(ws));
    } else {
      LedAnywhere(ws, i, from - 1);
      LedSlides(ws, i, from - 1);
    }
  }

  /** How many of the `n` turns from `from` on elect position `i`. */
  ghost function Elections(validators: seq<Address>, ws: Weights, i: nat, from: nat, n: nat): nat
    requires from + n <= MAX_U64 + 1
  {
    if n == 0 then 0
    else Elections(validators, ws, i, from, n - 1) + if Elects(validators, ws, from + n - 1, i) then 1 else 0
  }

  lemma {:induction false} ElectionsAreLed(validators: seq<Address>, ws: Weights, i: nat, from: nat, n: nat)
    requires |ws| == |validators| && i < |ws| && 0 < Sum(ws) <= MAX_U64 && from + n <= MAX_U64 + 1
    ensures Elections(validators, ws, i, from, n) == Led(ws, i, from, n)
  {
    if n > 0 {
      ElectionsAreLed(validators, ws, i, from, n - 1);
    }
  }

  /** Proportional leadership: any window of `total` consecutive turns that does not wrap
      around elects validator `i` exactly as often as it weighs. */
  lemma Proportional(validators: seq<Address>, ws: Weights, i: nat, from: nat)
    requires |ws| == |validators| && i < |ws| && 0 < Sum(ws) <= MAX_U64 && from + Sum(ws) <= MAX_U64 + 1
    ensures Elections(validators, ws, i, from, Sum(ws)) == ws[i]
  {
    ElectionsAreLed(validators, ws, i, from, Sum(ws));
    LedAnywhere(ws, i, from);
  }

  /** A validator without weight never leads, while anyone has some. */
  lemma NoWeightNoLead(validators: seq<Address>, ws: Weights, turn: U64, i: nat)
    requires |ws| == |validators| && i < |ws| && ws[i] == 0 && Sum(ws) > 0
    ensures !Elects(validators, ws, turn, i)
  {
    PrefixStep(ws, i);
  }

  predicate AllOnes(ws: Weights) {
    forall i :: 0 <= i < |ws| ==> ws[i] == 1
  }

  lemma {:induction false} OnesSum(ws: Weights)
    requires AllOnes(ws)
    ensures Sum(ws) == |ws|
  {
    if ws != [] {
      OnesSum(ws[..|ws| - 1]);
    }
  }

  /** With every weight at one the schedule is the plain rotation. */
  lemma UnitWeightsRotate(validators: seq<Address>, ws: Weights, turn: U64, i: nat)
    requires |ws| == |validators| && 0 < |ws| <= MAX_U64 && AllOnes(ws)
    ensures Elects(validators, ws, turn, i) <==> i == turn % |validators|
  {
    OnesSum(ws);
    if i < |ws| {
      OnesSum(ws[..i]);
      OnesSum(ws[..i + 1]);
    }
  }
}

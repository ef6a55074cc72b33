/**
 Weighted quorums and quorum certificates of crates/ego-consensus-core/src/bft.rs. Signatures,
 addresses of keys and the Merkle root are parameters.
 */
module BftQuorum {
  import opened Common
  import opened Leadership

  function QuorumSize(n: nat): nat {
    2 * n / 3 + 1
  }

  /** The weights kept by `set_weights`: one per validator, or none at all. */
  predicate Fits(validators: seq<Address>, ws: Weights) {
    ws == [] || |ws| == |validators|
  }

  function SetWeights(validators: seq<Address>, ws: Weights): (kept: Weights)
    ensures Fits(validators, kept) && (kept == ws || kept == [])
    ensures Fits(validators, ws) ==> kept == ws
  {
    if |ws| == |validators| then ws else []
  }

  predicate FirstAt(validators: seq<Address>, i: nat, a: Address) {
    i < |validators| && validators[i] == a && forall j :: 0 <= j < i ==> validators[j] != a
  }

  method Position(validators: seq<Address>, a: Address) returns (at: Option<nat>)
    ensures if at.Some? then FirstAt(validators, at.value, a) else a !in validators
  {
    for i := 0 to |validators|
      invariant forall j :: 0 <= j < i ==> validators[j] != a
    {
      if validators[i] == a {
        return Some(i);
      }
    }
    return None;
  }

  /** What the first `n` positions of the committee contribute when `voters` vote: each voter
      counts at its first position only. */
  function Weighed(validators: seq<Address>, ws: Weights, voters: set<Address>, n: nat): (total: nat)
    requires n <= |validators| && |ws| == |validators|
  {
    if n == 0 then 0
    else
      Weighed(validators, ws, voters, n - 1) +
      if validators[n - 1] in voters && FirstAt(validators, n - 1, validators[n - 1]) then ws[n - 1] else 0
  }

  /** What a set of voters is worth: outsiders nothing, unless there are no weights at all. */
  function Worth(validators: seq<Address>, ws: Weights, voters: set<Address>): nat
    requires Fits(validators, ws)
  {
    if ws == [] then |voters| else Weighed(validators, ws, voters, |validators|)
  }

  function Full(validators: seq<Address>, ws: Weights): nat {
    if ws == [] then |validators| else Sum(ws)
  }

  method WeightOf(validators: seq<Address>, ws: Weights, a: Address) returns (w: U64)
    requires Fits(validators, ws)
    ensures w == Worth(validators, ws, {a})
  {
    if |ws| == 0 {
      return 1;
    }
    var at := Position(validators, a);
    if at.Some? && at.value < |ws| {
      OnlyOnce(validators, ws, a, at.value, |validators|);
      return ws[at.value];
    }
    AbsentWeighsNothing(validators, ws, a, |validators|);
    return 0;
  }

  lemma {:induction false} OnlyOnce(validators: seq<Address>, ws: Weights, a: Address, at: nat, n: nat)
    requires |ws| == |validators| && FirstAt(validators, at, a) && n <= |validators|
    ensures Weighed(validators, ws, {a}, n) == if at < n then ws[at] else 0
  {
    if n > 0 {
      OnlyOnce(validators, ws, a, at, n - 1);
    }
  }

  lemma {:induction false} AbsentWeighsNothing(validators: seq<Address>, ws: Weights, a: Address, n: nat)
    requires |ws| == |validators| && a !in validators && n <= |validators|
    ensures Weighed(validators, ws, {a}, n) == 0
  {
    if n > 0 {
      AbsentWeighsNothing(validators, ws, a, n - 1);
    }
  }

  lemma {:induction false} WeighedAdds(validators: seq<Address>, ws: Weights, a: set<Address>, b: set<Address>, n: nat)
    requires |ws| == |validators| && n <= |validators|
    ensures Weighed(validators, ws, a, n) + Weighed(validators, ws, b, n) ==
            Weighed(validators, ws, a + b, n) + Weighed(validators, ws, a * b, n)
  {
    if n > 0 {
      WeighedAdds(validators, ws, a, b, n - 1);
    }
  }

  lemma {:induction false} WeighedNobody(validators: seq<Address>, ws: Weights, n: nat)
    requires |ws| == |validators| && n <= |validators|
    ensures Weighed(validators, ws, {}, n) == 0
  {
    if n > 0 {
      WeighedNobody(validators, ws, n - 1);
    }
  }

  lemma {:induction false} WeighedWithin(validators: seq<Address>, ws: Weights, voters: set<Address>, n: nat)
    requires |ws| == |validators| && n <= |validators|
    ensures Weighed(validators, ws, voters, n) <= Prefix(ws, n)
  {
    if n > 0 {
      WeighedWithin(validators, ws, voters, n - 1);
      PrefixStep(ws, n - 1);
    }
  }

  lemma WorthOfNewcomer(validators: seq<Address>, ws: Weights, seen: set<Address>, a: Address)
    requires Fits(validators, ws) && a !in seen
    ensures Worth(validators, ws, seen + {a}) == Worth(validators, ws, seen) + Worth(validators, ws, {a})
  {
    if ws != [] {
      WeighedAdds(validators, ws, seen, {a}, |validators|);
      assert seen * {a} == {};
      WeighedNobody(validators, ws, |validators|);
    }
  }

  function Voters(list: seq<Address>): set<Address> {
    set a | a in list
  }

  /** More than two thirds of the total, counted as the 64-bit code counts it. */
  predicate IsQuorumOf(validators: seq<Address>, ws: Weights, voters: set<Address>)
    requires Fits(validators, ws)
  {
    var total := Min(Full(validators, ws), MAX_U64);
    total != 0 && 3 * Min(Worth(validators, ws, voters), MAX_U64) > 2 * total
  }

  /** Duplicates in the list do not count twice. */
  method IsQuorum(validators: seq<Address>, ws: Weights, list: seq<Address>) returns (ok: bool)
    requires Fits(validators, ws) && |validators| <= MAX_U64
    ensures ok <==> IsQuorumOf(validators, ws, Voters(list))
  {
    var total: U64 := |validators|;
    if |ws| != 0 {
      total := TotalWeight(ws);
    }
    if total == 0 {
      return false;
    }
    var seen: seq<Address> := [];
    var got: U64 := 0;
    WorthOfNobody(validators, ws);
    for i := 0 to |list|
      invariant Voters(seen) == Voters(list[..i])
      invariant got == Min(Worth(validators, ws, Voters(seen)), MAX_U64)
    {
      OneMoreVoter(list, i);
      if list[i] in seen {
        continue;
      }
      WorthOfNewcomer(validators, ws, Voters(seen), list[i]);
      var w := WeightOf(validators, ws, list[i]);
      got := SatAdd(got, w);
      assert Voters(seen + [list[i]]) == Voters(seen) + {list[i]};
      seen := seen + [list[i]];
    }
    assert list[..|list|] == list;
    return got * 3 > total * 2;
  }

  lemma OneMoreVoter(list: seq<Address>, i: nat)
    requires i < |list|
    ensures Voters(list[..i + 1]) == Voters(list[..i]) + {list[i]}
  {
    assert list[..i + 1] == list[..i] + [list[i]];
  }

  lemma WorthOfNobody(validators: seq<Address>, ws: Weights)
    requires Fits(validators, ws)
    ensures Worth(validators, ws, Voters([])) == 0
  {
    assert Voters([]) == {};
    if ws != [] {
      WeighedNobody(validators, ws, |validators|);
    }
  }

  /** Quorum overlap: any two accepted lists, whatever duplicates or outsiders they hold, share
      members worth more than a third of the total. Past 64 bits the total counted falls short
      of the sum of the weights, and the overlap shrinks by that much. */
  lemma QuorumsOverlap(validators: seq<Address>, ws: Weights, a: set<Address>, b: set<Address>)
    requires |ws| == |validators| && ws != []
    requires IsQuorumOf(validators, ws, a) && IsQuorumOf(validators, ws, b)
    ensures 3 * Weighed(validators, ws, a * b, |validators|) > 4 * Total(ws) - 3 * Sum(ws)
    ensures Sum(ws) <= MAX_U64 ==> 3 * Weighed(validators, ws, a * b, |validators|) > Sum(ws)
  {
    var n := |validators|;
    WeighedAdds(validators, ws, a, b, n);
    WeighedWithin(validators, ws, a + b, n);
  }

  /** The voters and everybody else are a quorum each. */
  predicate Splits(validators: seq<Address>, ws: Weights, voters: set<Address>)
    requires Fits(validators, ws)
  {
    IsQuorumOf(validators, ws, voters) && IsQuorumOf(validators, ws, Voters(validators) - voters)
  }

  /** For any weights at all: two quorums always share some weight exactly when the committee
      cannot be split into two quorums. */
  lemma QuorumsMeetIff(validators: seq<Address>, ws: Weights)
    requires |ws| == |validators| && ws != []
    ensures (forall a, b :: IsQuorumOf(validators, ws, a) && IsQuorumOf(validators, ws, b) ==>
               Weighed(validators, ws, a * b, |validators|) > 0)
            <==> forall a :: !Splits(validators, ws, a)
  {
    var n := |validators|;
    forall a | Splits(validators, ws, a) ensures Weighed(validators, ws, a * (Voters(validators) - a), n) == 0 {
      assert a * (Voters(validators) - a) == {};
      WeighedNobody(validators, ws, n);
    }
    forall a, b | IsQuorumOf(validators, ws, a) && IsQuorumOf(validators, ws, b) &&
                  Weighed(validators, ws, a * b, n) == 0
      ensures Splits(validators, ws, a)
    {
      RestWeighsMore(validators, ws, a, b, n);
    }
  }

  /** Whoever is not in `a` weighs at least what `b` weighs beyond what both share. */
  lemma {:induction false} RestWeighsMore(
    validators: seq<Address>, ws: Weights, a: set<Address>, b: set<Address>, n: nat)
    requires |ws| == |validators| && n <= |validators|
    ensures Weighed(validators, ws, b, n) <=
            Weighed(validators, ws, Voters(validators) - a, n) + Weighed(validators, ws, a * b, n)
  {
    if n > 0 {
      RestWeighsMore(validators, ws, a, b, n - 1);
    }
  }

  /** Weights up to a third past 64 bits cannot be split; twice the largest weight can. */
  lemma WhatSplits(validators: seq<Address>, ws: Weights, a: set<Address>)
    requires |ws| == |validators| && ws != []
    ensures 3 * Sum(ws) <= 4 * Total(ws) ==> !Splits(validators, ws, a)
    ensures validators == [0, 1] && ws == [MAX_U64, MAX_U64] ==> Splits(validators, ws, {0})
  {
    if Splits(validators, ws, a) {
      QuorumsOverlap(validators, ws, a, Voters(validators) - a);
      assert a * (Voters(validators) - a) == {};
      WeighedNobody(validators, ws, |validators|);
    }
    if validators == [0, 1] && ws == [MAX_U64, MAX_U64] {
      TwoGiants();
    }
  }

  lemma SumOfTwo(a: U64, b: U64)
    ensures Sum([a, b]) == a + b
  {
    assert [a][..0] == [] && [a, b][..1] == [a];
    assert Sum([]) == 0;
    assert Sum([a]) == Sum([a][..0]) + a;
    assert Sum([a, b]) == Sum([a, b][..1]) + b;
  }

  lemma TwoGiants()
    ensures Splits([0, 1], [MAX_U64, MAX_U64], {0})
  {
    var vs, ws: Weights := [0, 1], [MAX_U64, MAX_U64];
    assert Voters(vs) - {0} == {1};
    SumOfTwo(MAX_U64, MAX_U64);
    OnlyOnce(vs, ws, 0, 0, 2);
    OnlyOnce(vs, ws, 1, 1, 2);
  }

  predicate DistinctList(validators: seq<Address>) {
    forall i, j :: 0 <= i < j < |validators| ==> validators[i] != validators[j]
  }

  /** How many of the first `n` members vote. */
  function Voting(validators: seq<Address>, voters: set<Address>, n: nat): nat
    requires n <= |validators|
  {
    |voters * Voters(validators[..n])|
  }

  lemma NobodyVotes(validators: seq<Address>, voters: set<Address>)
    ensures Voting(validators, voters, 0) == 0
  {
    assert voters * Voters(validators[..0]) == {};
  }

  lemma {:induction false} UnitWeighed(validators: seq<Address>, ws: Weights, voters: set<Address>, n: nat)
    requires |ws| == |validators| && AllOnes(ws) && DistinctList(validators) && n <= |validators|
    ensures Weighed(validators, ws, voters, n) == Voting(validators, voters, n)
  {
    NobodyVotes(validators, voters);
    for i := 0 to n
      invariant Weighed(validators, ws, voters, i) == Voting(validators, voters, i)
    {
      UnitStep(validators, ws, voters, i);
      OneMoreMember(validators, voters, i);
    }
  }

  lemma UnitStep(validators: seq<Address>, ws: Weights, voters: set<Address>, i: nat)
    requires |ws| == |validators| && AllOnes(ws) && DistinctList(validators) && i < |validators|
    ensures Weighed(validators, ws, voters, i + 1) ==
            Weighed(validators, ws, voters, i) + if validators[i] in voters then 1 else 0
  {
    assert FirstAt(validators, i, validators[i]);
  }

  lemma OneMoreMember(validators: seq<Address>, voters: set<Address>, i: nat)
    requires DistinctList(validators) && i < |validators|
    ensures Voting(validators, voters, i + 1) ==
            Voting(validators, voters, i) + if validators[i] in voters then 1 else 0
  {
    var before, x := voters * Voters(validators[..i]), validators[i];
    OneMoreVoter(validators, i);
    NotYetThere(validators, i);
    assert voters * Voters(validators[..i + 1]) == if x in voters then before + {x} else before;
  }

  /** With unit weights a list is accepted exactly when quorum-size distinct members vote. */
  lemma UnitQuorum(validators: seq<Address>, ws: Weights, voters: set<Address>)
    requires ws != [] && |ws| == |validators| <= MAX_U64 && AllOnes(ws) && DistinctList(validators)
    ensures IsQuorumOf(validators, ws, voters) <==> |voters * Voters(validators)| >= QuorumSize(|validators|)
  {
    OnesSum(ws);
    UnitWeighed(validators, ws, voters, |validators|);
    assert validators[..|validators|] == validators;
    WeighedWithin(validators, ws, voters, |validators|);
  }

  /** Without weights every distinct voter counts, member or not. */
  lemma UnweightedQuorum(validators: seq<Address>, voters: set<Address>)
    requires 0 < |validators| <= MAX_U64
    ensures IsQuorumOf(validators, [], voters) <==> |voters| >= QuorumSize(|validators|)
  {
  }

  /** So without weights the count of members decides on every list of voters exactly when
      nobody from outside the committee votes on any of them. */
  lemma MembersDecideIff(validators: seq<Address>, electorate: set<Address>)
    requires 0 < |validators| <= MAX_U64 && DistinctList(validators) && Voters(validators) <= electorate
    ensures (forall voters :: voters <= electorate ==>
               (IsQuorumOf(validators, [], voters) <==> |voters * Voters(validators)| >= QuorumSize(|validators|)))
            <==> electorate == Voters(validators)
  {
    if electorate == Voters(validators) {
      forall voters | voters <= electorate
        ensures IsQuorumOf(validators, [], voters) <==> |voters * Voters(validators)| >= QuorumSize(|validators|)
      {
        assert voters * Voters(validators) == voters;
      }
    } else {
      var x :| x in electorate && x !in Voters(validators);
      var voters := OutsiderTips(validators, x);
      assert voters <= electorate;
    }
  }

  /** One outsider completes a quorum that is one member short. */
  lemma OutsiderTips(validators: seq<Address>, x: Address) returns (voters: set<Address>)
    requires 0 < |validators| <= MAX_U64 && DistinctList(validators) && x !in validators
    ensures voters <= Voters(validators) + {x}
    ensures IsQuorumOf(validators, [], voters) && |voters * Voters(validators)| < QuorumSize(|validators|)
  {
    var k := QuorumSize(|validators|) - 1;
    DistinctCount(validators, k);
    var members := Voters(validators[..k]);
    voters := members + {x};
    assert members <= Voters(validators);
    assert voters * Voters(validators) == members;
  }

  lemma NotYetThere(validators: seq<Address>, i: nat)
    requires DistinctList(validators) && i < |validators|
    ensures validators[i] !in Voters(validators[..i])
  {
  }

  lemma {:induction false} DistinctCount(validators: seq<Address>, n: nat)
    requires DistinctList(validators) && n <= |validators|
    ensures |Voters(validators[..n])| == n
  {
    if n == 0 {
      assert Voters(validators[..0]) == {};
    } else {
      DistinctCount(validators, n - 1);
      OneMoreVoter(validators, n - 1);
      NotYetThere(validators, n - 1);
    }
  }

  // ----- certificates

  type Hash = nat
  type Key = nat
  type Signature = nat

  datatype Vote = Vote(block: Hash, height: U64, epoch: U64, round: U32, voter: Address, key: Key, sig: Signature)
  datatype Certificate = Certificate(block: Hash, height: U64, epoch: U64, round: U32, root: Hash)

  /** Addresses of keys, signature checks (which may fail outright) and Merkle roots. */
  datatype Crypto = Crypto(
    address: Key -> Address, verify: Vote -> Result<bool, string>, merkle: seq<Signature> -> Hash)

  function Signatures(votes: seq<Vote>): seq<Signature> {
    if votes == [] then [] else Signatures(votes[..|votes| - 1]) + [votes[|votes| - 1].sig]
  }

  function Signers(votes: seq<Vote>): set<Address> {
    set v | v in votes :: v.voter
  }

  predicate About(qc: Certificate, v: Vote) {
    v.block == qc.block && v.height == qc.height && v.epoch == qc.epoch && v.round == qc.round
  }

  /** The vote is for the certificate's block, by a member that has not signed before, under
      that member's key. */
  predicate Proper(c: Crypto, qc: Certificate, validators: seq<Address>, votes: seq<Vote>, i: nat) {
    i < |votes| && About(qc, votes[i]) && c.address(votes[i].key) == votes[i].voter &&
    votes[i].voter in validators && forall j :: 0 <= j < i ==> votes[j].voter != votes[i].voter
  }

  predicate Sound(c: Crypto, qc: Certificate, validators: seq<Address>, votes: seq<Vote>, i: nat) {
    Proper(c, qc, validators, votes, i) && c.verify(votes[i]) == Ok(true)
  }

  ghost predicate AllSound(c: Crypto, qc: Certificate, validators: seq<Address>, votes: seq<Vote>, n: nat) {
    forall i: nat :: i < n ==> Sound(c, qc, validators, votes, i)
  }

  /** The votes rebind to the certificate, all are sound and there are enough. */
  ghost predicate Accepted(c: Crypto, qc: Certificate, votes: seq<Vote>, validators: seq<Address>) {
    && validators != [] && c.merkle(Signatures(votes)) == qc.root
    && AllSound(c, qc, validators, votes, |votes|) && |votes| >= QuorumSize(|validators|)
  }

  /** Some signature check fails outright, and all before it is in order. */
  ghost predicate Unverifiable(c: Crypto, qc: Certificate, votes: seq<Vote>, validators: seq<Address>) {
    && validators != [] && c.merkle(Signatures(votes)) == qc.root
    && exists k: nat :: AllSound(c, qc, validators, votes, k) && Proper(c, qc, validators, votes, k) &&
        c.verify(votes[k]).Err?
  }

  lemma StopsAt(c: Crypto, qc: Certificate, votes: seq<Vote>, validators: seq<Address>, i: nat)
    requires i < |votes| && AllSound(c, qc, validators, votes, i) && !Sound(c, qc, validators, votes, i)
    requires validators != [] && c.merkle(Signatures(votes)) == qc.root
    ensures !Accepted(c, qc, votes, validators)
    ensures Unverifiable(c, qc, votes, validators) <==> Proper(c, qc, validators, votes, i) && c.verify(votes[i]).Err?
  {
    NoFaultBefore(c, qc, votes, validators, i);
    forall k: nat | i < k ensures !AllSound(c, qc, validators, votes, k) {
      assert !Sound(c, qc, validators, votes, i);
    }
  }

  lemma NoFaultBefore(c: Crypto, qc: Certificate, votes: seq<Vote>, validators: seq<Address>, n: nat)
    requires n <= |votes| && AllSound(c, qc, validators, votes, n)
    ensures forall k: nat :: k < n ==> !c.verify(votes[k]).Err?
  {
    forall k: nat | k < n ensures !c.verify(votes[k]).Err? {
      assert Sound(c, qc, validators, votes, k);
    }
  }

  /** Accepts exactly the certificates that are backed by a quorum of sound votes. */
  method Verify(c: Crypto, qc: Certificate, votes: seq<Vote>, validators: seq<Address>)
    returns (r: Result<bool, string>)
    ensures r == Ok(true) <==> Accepted(c, qc, votes, validators)
    ensures r.Err? <==> Unverifiable(c, qc, votes, validators)
  {
    if |validators| == 0 {
      return Ok(false);
    }
    var sigs := CollectSignatures(votes);
    if c.merkle(sigs) != qc.root {
      return Ok(false);
    }
    var quorum := 2 * |validators| / 3 + 1;
    var seen: set<Address> := {};
    for i := 0 to |votes|
      invariant AllSound(c, qc, validators, votes, i)
      invariant seen == Signers(votes[..i]) && |seen| == i
    {
      var v := votes[i];
      SignersSoFar(votes, i);
      if !About(qc, v) || c.address(v.key) != v.voter || v.voter !in validators || v.voter in seen {
        assert !Proper(c, qc, validators, votes, i);
        StopsAt(c, qc, votes, validators, i);
        return Ok(false);
      }
      assert Proper(c, qc, validators, votes, i);
      var ok := c.verify(v);
      if ok != Ok(true) {
        StopsAt(c, qc, votes, validators, i);
        return if ok.Err? then ok else Ok(false);
      }
      seen := seen + {v.voter};
    }
    NoFaultBefore(c, qc, votes, validators, |votes|);
    return Ok(|seen| >= quorum);
  }

  method CollectSignatures(votes: seq<Vote>) returns (sigs: seq<Signature>)
    ensures sigs == Signatures(votes)
  {
    sigs := [];
    for i := 0 to |votes|
      invariant sigs == Signatures(votes[..i])
    {
      assert votes[..i + 1][..i] == votes[..i];
      sigs := sigs + [votes[i].sig];
    }
    assert votes[..|votes|] == votes;
  }

  lemma SignersSoFar(votes: seq<Vote>, i: nat)
    requires i < |votes|
    ensures Signers(votes[..i + 1]) == Signers(votes[..i]) + {votes[i].voter}
    ensures votes[i].voter in Signers(votes[..i]) <==> exists j :: 0 <= j < i && votes[j].voter == votes[i].voter
  {
    assert votes[..i + 1] == votes[..i] + [votes[i]];
    assert forall j :: 0 <= j < i ==> votes[j] in votes[..i];
  }

  lemma {:induction false} SignerCount(c: Crypto, qc: Certificate, votes: seq<Vote>, validators: seq<Address>, n: nat)
    requires AllSound(c, qc, validators, votes, n) && n <= |votes|
    ensures |Signers(votes[..n])| == n && Signers(votes[..n]) <= Voters(validators)
  {
    if n == 0 {
      assert Signers(votes[..0]) == {};
    } else {
      SignerCount(c, qc, votes, validators, n - 1);
      SignersSoFar(votes, n - 1);
      assert Sound(c, qc, validators, votes, n - 1);
    }
  }

  lemma {:induction false} ListSize(list: seq<Address>)
    ensures |Voters(list)| <= |list|
  {
    if list != [] {
      var k := |list| - 1;
      ListSize(list[..k]);
      OneMoreVoter(list, k);
      assert list[..k + 1] == list;
    }
  }

  /** Somebody validly signed votes for both blocks. */
  ghost predicate SignedBoth(c: Crypto, a: Certificate, b: Certificate, x: Address) {
    exists v: Vote, w: Vote ::
      && About(a, v) && v.voter == x && c.verify(v) == Ok(true)
      && About(b, w) && w.voter == x && c.verify(w) == Ok(true)
  }

  /** Two accepted certificates share more than a third of the committee as signers, each of
      whom validly signed for both; for conflicting blocks those are all equivocators. */
  lemma CertificatesOverlap(
    c: Crypto, validators: seq<Address>, a: Certificate, av: seq<Vote>, b: Certificate, bv: seq<Vote>)
    requires Accepted(c, a, av, validators) && Accepted(c, b, bv, validators)
    ensures 3 * |Signers(av) * Signers(bv)| > |validators|
    ensures forall x :: x in Signers(av) * Signers(bv) ==> SignedBoth(c, a, b, x)
  {
    SignerCount(c, a, av, validators, |av|);
    SignerCount(c, b, bv, validators, |bv|);
    assert av[..|av|] == av && bv[..|bv|] == bv;
    ListSize(validators);
    var p, q, both := Signers(av), Signers(bv), Signers(av) * Signers(bv);
    SubsetSize(p + q, Voters(validators));
    assert |p + q| == |p| + |q| - |both|;
    forall x | x in both ensures SignedBoth(c, a, b, x) {
      SharedSigner(c, validators, a, av, b, bv, x);
    }
  }

  lemma SharedSigner(
    c: Crypto, validators: seq<Address>, a: Certificate, av: seq<Vote>, b: Certificate, bv: seq<Vote>, x: Address)
    requires Accepted(c, a, av, validators) && Accepted(c, b, bv, validators) && x in Signers(av) && x in Signers(bv)
    ensures SignedBoth(c, a, b, x)
  {
    var i :| 0 <= i < |av| && av[i].voter == x;
    var j :| 0 <= j < |bv| && bv[j].voter == x;
    assert Sound(c, a, validators, av, i) && Sound(c, b, validators, bv, j);
  }
}

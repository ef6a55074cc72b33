/**
 The round state of the engine in crates/ego-consensus-core/src/bft.rs and the view-change and
 lock bookkeeping of crates/ego-consensus-core/src/fork_choice.rs: one vote per (height, round).
 */
module BftRounds {
  import opened Common
  import opened Leadership
  import opened BftQuorum

  datatype Header = Header(height: U64, epoch: U64, round: U32, proposer: Address, hash: Hash)
  datatype Cert = Cert(block: Hash, epoch: U64, round: U32, voters: nat)
  datatype Ask = Ask(
    newRound: U32, height: U64, epoch: U64, sender: Address, key: Key, sig: Signature, highQc: Option<Cert>)
  datatype Ballot = Ballot(height: U64, round: U32, block: Hash)

  datatype Phase = Propose | Voting | Commit
  datatype RoundState = RoundState(
    height: U64, epoch: U64, round: U32, phase: Phase, proposed: Option<Header>, votedFor: Option<Hash>)

  function FreshRound(height: U64, epoch: U64, round: U32): RoundState {
    RoundState(height, epoch, round, Phase.Propose, None, None)
  }

  type Asks = map<(U64, U32), seq<Ask>>

  datatype State = State(
    height: U64, epoch: U64, round: RoundState,
    asks: Asks, qcs: map<Hash, Cert>, highQc: Option<Cert>, lockedQc: Option<Cert>, head: Option<Hash>)

  const START := State(0, 0, FreshRound(0, 0, 0), map[], map[], None, None, None)

  // ----- the fork-choice store

  predicate Newer(a: Cert, b: Option<Cert>) {
    b.None? || a.epoch > b.value.epoch || (a.epoch == b.value.epoch && a.round > b.value.round)
  }

  function AddQc(s: State, qc: Cert): (t: State)
    ensures t == s.(qcs := t.qcs, highQc := t.highQc)
  {
    var s' := if Newer(qc, s.highQc) then s.(highQc := Some(qc)) else s;
    s'.(qcs := s'.qcs[qc.block := qc])
  }

  function Lock(s: State, qc: Cert): State {
    if Newer(qc, s.lockedQc) then s.(lockedQc := Some(qc), head := Some(qc.block)) else s
  }

  function AsksFor(asks: Asks, height: U64, round: U32): seq<Ask> {
    if (height, round) in asks then asks[(height, round)] else []
  }

  /** The newest certificate among the asks; the last of several equally new ones. */
  function BestQc(asks: seq<Ask>): Option<Cert> {
    if asks == [] then None
    else
      var before, last := BestQc(asks[..|asks| - 1]), asks[|asks| - 1].highQc;
      if last.Some? && (before.None? || !Newer(before.value, last)) then last else before
  }

  /** The certificate of ask `i` is the newest of all, and newer than every later one. */
  predicate LastNewest(asks: seq<Ask>, i: nat) {
    && i < |asks| && asks[i].highQc.Some?
    && (forall j :: 0 <= j < |asks| && asks[j].highQc.Some? ==> !Newer(asks[j].highQc.value, asks[i].highQc))
    && (forall j :: i < j < |asks| && asks[j].highQc.Some? ==> Newer(asks[i].highQc.value, asks[j].highQc))
  }

  /** What the search is for: the newest certificate, the last of equally new ones, or none if
      nobody sent one. */
  ghost predicate IsNewest(asks: seq<Ask>, best: Option<Cert>) {
    match best
    case None => forall i :: 0 <= i < |asks| ==> asks[i].highQc.None?
    case Some(_) => exists i: nat :: LastNewest(asks, i) && asks[i].highQc == best
  }

  lemma {:induction false} BestQcIsNewest(asks: seq<Ask>)
    ensures IsNewest(asks, BestQc(asks))
  {
    if asks != [] {
      var n := |asks| - 1;
      BestQcIsNewest(asks[..n]);
      var before := BestQc(asks[..n]);
      if before.Some? {
        var i: nat :| LastNewest(asks[..n], i) && asks[..n][i].highQc == before;
        StaysNewest(asks, i);
      } else {
        FirstIsNewest(asks);
      }
    }
  }

  lemma StaysNewest(asks: seq<Ask>, i: nat)
    requires asks != [] && LastNewest(asks[..|asks| - 1], i)
    ensures var n := |asks| - 1;
            LastNewest(asks, if asks[n].highQc.Some? && !Newer(asks[i].highQc.value, asks[n].highQc) then n else i)
  {
    var n := |asks| - 1;
    assert forall j :: 0 <= j < n ==> asks[..n][j] == asks[j];
  }

  lemma FirstIsNewest(asks: seq<Ask>)
    requires asks != [] && IsNewest(asks[..|asks| - 1], None)
    ensures var n := |asks| - 1; if asks[n].highQc.Some? then LastNewest(asks, n) else IsNewest(asks, None)
  {
    var n := |asks| - 1;
    assert forall j :: 0 <= j < n ==> asks[..n][j] == asks[j];
  }

  /** There is only one such certificate. */
  lemma NewestIsUnique(asks: seq<Ask>, a: Option<Cert>, b: Option<Cert>)
    requires IsNewest(asks, a) && IsNewest(asks, b)
    ensures a == b
  {
    if a.Some? && b.Some? {
      var i: nat :| LastNewest(asks, i) && asks[i].highQc == a;
      var j: nat :| LastNewest(asks, j) && asks[j].highQc == b;
      assert i == j;
    }
  }

  predicate AskedAlready(asks: seq<Ask>, sender: Address) {
    exists i :: 0 <= i < |asks| && asks[i].sender == sender
  }

  /** What `add_view_change` answers once the ask is verified. */
  datatype Answer = Waiting | Quorum(best: Option<Cert>)

  function Recorded(s: State, ask: Ask): State {
    s.(asks := s.asks[(ask.height, ask.newRound) := AsksFor(s.asks, ask.height, ask.newRound) + [ask]])
  }

  /** Somebody who asked already is not counted again. */
  function AddAsk(s: State, ask: Ask, quorum: nat): (State, Answer) {
    var list := AsksFor(s.asks, ask.height, ask.newRound);
    if AskedAlready(list, ask.sender) then (s, Waiting)
    else
      var t := Recorded(s, ask);
      if |list| + 1 < quorum then (t, Waiting)
      else
        var best := BestQc(list + [ask]);
        (if best.Some? then AddQc(t, best.value) else t, Quorum(best))
  }

  // ----- the engine

  /** Whether the block may be voted for, given whether it extends the locked one. */
  predicate SafeToVote(s: State, header: Header, onLock: bool) {
    s.lockedQc.None? || header.epoch > s.lockedQc.value.epoch ||
    (header.epoch == s.lockedQc.value.epoch && onLock)
  }

  /** What the engine is told about a proposal by code outside this model. */
  datatype Checks = Checks(signed: Result<bool, string>, recent: bool, onLock: bool)

  /** The schedule elects this validator for (height, round). */
  ghost predicate Leads(vs: seq<Address>, ws: Weights, height: U64, round: U32, who: Address) {
    exists i: nat :: Elects(vs, ws, TurnOf(height, round), i) && vs[i] == who
  }

  /** A proposal of a later round moves the round there before anything else is looked at. */
  function CaughtUp(s: State, header: Header): State {
    if header.round > s.round.round && s.round.height == s.height
    then s.(round := s.round.(round := header.round, phase := Phase.Propose)) else s
  }

  ghost function OnProposal(
    s: State, vs: seq<Address>, ws: Weights, header: Header, c: Checks): (State, Result<Option<Ballot>, string>)
  {
    if header.height != s.height || header.round < s.round.round ||
       !Leads(vs, ws, s.height, header.round, header.proposer) then (s, Ok(None))
    else
      var t := CaughtUp(s, header);
      if c.signed.Err? then (t, Err(c.signed.error))
      else if !c.signed.value || !c.recent || !SafeToVote(t, header, c.onLock) then (t, Ok(None))
      else if t.round.votedFor.Some? && t.round.votedFor.value != header.hash then (t, Ok(None))
      else
        (t.(round := t.round.(proposed := Some(header), votedFor := Some(header.hash), phase := Phase.Voting)),
         Ok(Some(Ballot(header.height, t.round.round, header.hash))))
  }

  function OnAsk(s: State, n: nat, ask: Ask, signed: Result<bool, string>): (State, Result<Option<U32>, string>) {
    if ask.height != s.round.height || ask.newRound <= s.round.round then (s, Ok(None))
    else if signed.Err? then (s, Err(signed.error))
    else if !signed.value then (s, Err("ViewChangeMsg signature invalid"))
    else
      var (t, answer) := AddAsk(s, ask, QuorumSize(n));
      match answer
      case Waiting => (t, Ok(None))
      case Quorum(best) =>
        var moved := t.(round := FreshRound(t.round.height, t.round.epoch, ask.newRound));
        (if best.Some? then AddQc(moved, best.value) else moved, Ok(Some(ask.newRound)))
  }

  function Wrapped(x: int): U64
    requires 0 <= x
  {
    x % (MAX_U64 + 1)
  }

  function Finalized(s: State, n: nat, header: Header, qc: Cert): (State, Result<(), string>) {
    if qc.block != header.hash then (s, Err("QC block_hash mismatch"))
    else if qc.voters < QuorumSize(n) then (s, Err("QC insufficient votes"))
    else
      var h, e := Wrapped(header.height + 1), Wrapped(header.epoch + 1);
      var t := Lock(s, qc);
      (t.(height := h, epoch := e, round := FreshRound(h, e, 0),
          asks := map k | k in t.asks && k.0 >= h :: t.asks[k]),
       Ok(()))
  }

  class BftEngine {
    const validators: seq<Address>
    var weights: Weights
    var height: U64
    var epoch: U64
    var round: RoundState
    var asks: Asks
    var qcs: map<Hash, Cert>
    var highQc: Option<Cert>
    var lockedQc: Option<Cert>
    var head: Option<Hash>

    function View(): State
      reads this
    {
      State(height, epoch, round, asks, qcs, highQc, lockedQc, head)
    }

    constructor (validators: seq<Address>)
      ensures this.validators == validators && weights == [] && View() == START
    {
      this.validators, weights := validators, [];
      height, epoch, round := 0, 0, FreshRound(0, 0, 0);
      asks, qcs, highQc, lockedQc, head := map[], map[], None, None, None;
    }

    method AddCert(qc: Cert)
      modifies this
      ensures View() == AddQc(old(View()), qc) && weights == old(weights)
    {
      if Newer(qc, highQc) {
        highQc := Some(qc);
      }
      qcs := qcs[qc.block := qc];
    }

    method UpdateLock(qc: Cert)
      modifies this
      ensures View() == Lock(old(View()), qc) && weights == old(weights)
    {
      if Newer(qc, lockedQc) {
        lockedQc := Some(qc);
        head := Some(qc.block);
      }
    }

    method ReceiveProposal(header: Header, signed: Result<bool, string>, recent: bool, onLock: bool)
      returns (r: Result<Option<Ballot>, string>)
      modifies this
      ensures (View(), r) == OnProposal(old(View()), validators, weights, header, Checks(signed, recent, onLock))
      ensures weights == old(weights)
    {
      if header.height != height || header.round < round.round {
        return Ok(None);
      }
      var leader, at := ProposerAt(validators, weights, height, header.round);
      LeaderLeads(validators, weights, height, header.round, leader, at, header.proposer);
      if leader != Some(header.proposer) {
        return Ok(None);
      }
      if header.round > round.round && round.height == height {
        round := round.(round := header.round, phase := Phase.Propose);
      }
      if signed.Err? {
        return Err(signed.error);
      }
      if !signed.value || !recent {
        return Ok(None);
      }
      if !SafeToVote(View(), header, onLock) {
        return Ok(None);
      }
      if round.votedFor.Some? && round.votedFor.value != header.hash {
        return Ok(None);
      }
      round := round.(proposed := Some(header), votedFor := Some(header.hash), phase := Phase.Voting);
      return Ok(Some(Ballot(header.height, round.round, header.hash)));
    }

    method AddViewChange(ask: Ask, quorum: nat) returns (answer: Answer)
      modifies this
      ensures (View(), answer) == AddAsk(old(View()), ask, quorum) && weights == old(weights)
    {
      var list := AsksFor(asks, ask.height, ask.newRound);
      for i := 0 to |list|
        invariant forall j :: 0 <= j < i ==> list[j].sender != ask.sender
        invariant View() == old(View()) && weights == old(weights)
      {
        if list[i].sender == ask.sender {
          return Waiting;
        }
      }
      asks := asks[(ask.height, ask.newRound) := list + [ask]];
      if |list| + 1 >= quorum {
        var best := NewestQc(list + [ask]);
        if best.Some? {
          AddCert(best.value);
        }
        return Quorum(best);
      }
      return Waiting;
    }

    method ReceiveViewChange(ask: Ask, signed: Result<bool, string>) returns (r: Result<Option<U32>, string>)
      modifies this
      ensures (View(), r) == OnAsk(old(View()), |validators|, ask, signed) && weights == old(weights)
    {
      if ask.height != round.height || ask.newRound <= round.round {
        return Ok(None);
      }
      if signed.Err? {
        return Err(signed.error);
      }
      if !signed.value {
        return Err("ViewChangeMsg signature invalid");
      }
      var answer := AddViewChange(ask, QuorumSize(|validators|));
      if answer.Waiting? {
        return Ok(None);
      }
      round := FreshRound(round.height, round.epoch, ask.newRound);
      if answer.best.Some? {
        AddCert(answer.best.value);
      }
      return Ok(Some(ask.newRound));
    }

    method FinalizeBlock(header: Header, qc: Cert) returns (r: Result<(), string>)
      modifies this
      ensures (View(), r) == Finalized(old(View()), |validators|, header, qc) && weights == old(weights)
    {
      if qc.block != header.hash {
        return Err("QC block_hash mismatch");
      }
      if qc.voters < QuorumSize(|validators|) {
        return Err("QC insufficient votes");
      }
      UpdateLock(qc);
      var h := Wrapped(header.height + 1);
      asks := map k | k in asks && k.0 >= h :: asks[k];
      height, epoch := h, Wrapped(header.epoch + 1);
      round := FreshRound(height, epoch, 0);
      return Ok(());
    }
  }

  /** Whoever the walk over the weights finds is the one the schedule elects. */
  lemma LeaderLeads(
    vs: seq<Address>, ws: Weights, height: U64, round: U32, leader: Option<Address>, at: nat, who: Address)
    requires leader.None? <==> vs == []
    requires leader.Some? ==> Elects(vs, ws, TurnOf(height, round), at) && leader.value == vs[at]
    ensures leader == Some(who) <==> Leads(vs, ws, height, round, who)
  {
    if Leads(vs, ws, height, round, who) {
      var i: nat :| Elects(vs, ws, TurnOf(height, round), i) && vs[i] == who;
      ElectsOne(vs, ws, TurnOf(height, round), i, at);
    }
  }

  method NewestQc(asks: seq<Ask>) returns (best: Option<Cert>)
    ensures IsNewest(asks, best) && best == BestQc(asks)
  {
    best := None;
    for i := 0 to |asks|
      invariant best == BestQc(asks[..i])
    {
      BestOfOneMore(asks, i);
      var qc := asks[i].highQc;
      if qc.Some? && (best.None? || !Newer(best.value, qc)) {
        best := qc;
      }
    }
    BestOfAll(asks);
  }

  lemma BestOfOneMore(asks: seq<Ask>, i: nat)
    requires i < |asks|
    ensures var before, qc := BestQc(asks[..i]), asks[i].highQc;
            BestQc(asks[..i + 1]) == if qc.Some? && (before.None? || !Newer(before.value, qc)) then qc else before
  {
    assert asks[..i + 1][..i] == asks[..i];
  }

  lemma BestOfAll(asks: seq<Ask>)
    ensures BestQc(asks[..|asks|]) == BestQc(asks) && IsNewest(asks, BestQc(asks))
  {
    assert asks[..|asks|] == asks;
    BestQcIsNewest(asks);
  }

  // ----- runs

  /** What reaches the node: a proposal under the weights then in force, an ask, a finalised block. */
  datatype Step =
    | Proposal(header: Header, weights: Weights, checks: Checks)
    | ViewChange(ask: Ask, signed: Result<bool, string>)
    | Finalize(header: Header, qc: Cert)

  ghost function After(s: State, vs: seq<Address>, step: Step): State {
    match step
    case Proposal(header, ws, c) => OnProposal(s, vs, ws, header, c).0
    case ViewChange(ask, signed) => OnAsk(s, |vs|, ask, signed).0
    case Finalize(header, qc) => Finalized(s, |vs|, header, qc).0
  }

  /** The vote the step makes the node cast. */
  ghost function CastBy(s: State, vs: seq<Address>, step: Step): Option<Ballot> {
    match step
    case Proposal(header, ws, c) =>
      var r := OnProposal(s, vs, ws, header, c).1;
      if r.Ok? then r.value else None
    case _ => None
  }

  ghost function With(votes: set<Ballot>, vote: Option<Ballot>): set<Ballot> {
    if vote.Some? then votes + {vote.value} else votes
  }

  ghost function StateAfter(vs: seq<Address>, steps: seq<Step>): State {
    if steps == [] then START else After(StateAfter(vs, steps[..|steps| - 1]), vs, steps[|steps| - 1])
  }

  ghost function VotesCast(vs: seq<Address>, steps: seq<Step>): set<Ballot> {
    if steps == [] then {}
    else
      var k := |steps| - 1;
      With(VotesCast(vs, steps[..k]), CastBy(StateAfter(vs, steps[..k]), vs, steps[k]))
  }

  function AsksReceived(steps: seq<Step>): set<Ask> {
    set step | step in steps && step.ViewChange? && step.signed == Ok(true) :: step.ask
  }

  lemma OneMoreStep(vs: seq<Address>, steps: seq<Step>, step: Step)
    ensures StateAfter(vs, steps + [step]) == After(StateAfter(vs, steps), vs, step)
    ensures VotesCast(vs, steps + [step]) == With(VotesCast(vs, steps), CastBy(StateAfter(vs, steps), vs, step))
  {
    assert (steps + [step])[..|steps|] == steps;
  }

  /** (height, round) does not fall behind. */
  predicate NotBehind(h1: U64, r1: U32, h2: U64, r2: U32) {
    h1 < h2 || (h1 == h2 && r1 <= r2)
  }

  /** The certificate makes the node finalise the block. */
  predicate Accepts(vs: seq<Address>, header: Header, qc: Cert) {
    qc.block == header.hash && qc.voters >= QuorumSize(|vs|)
  }

  /** The height the node is at once it has finalised the block. */
  function HeightAfter(header: Header): U64 {
    Wrapped(header.height + 1)
  }

  /** A block is finalised that is not from below the node's height, nor the last countable one. */
  predicate Timely(s: State, vs: seq<Address>, step: Step) {
    step.Finalize? && Accepts(vs, step.header, step.qc) ==> s.height <= step.header.height < MAX_U64
  }

  /** From step `k` of the run on, blocks are finalised in time. */
  ghost predicate TimelyFrom(vs: seq<Address>, steps: seq<Step>, k: nat) {
    |steps| > k ==>
      var n := |steps| - 1;
      TimelyFrom(vs, steps[..n], k) && Timely(StateAfter(vs, steps[..n]), vs, steps[n])
  }

  /** No vote so far is at the height the block would put the node at, or above. */
  predicate NoVoteAbove(votes: set<Ballot>, header: Header) {
    forall v :: v in votes ==> v.height < HeightAfter(header)
  }

  predicate Careful(votes: set<Ballot>, vs: seq<Address>, step: Step) {
    step.Finalize? && Accepts(vs, step.header, step.qc) ==> NoVoteAbove(votes, step.header)
  }

  /** Whenever the run finalises a block, in time or not, it has no vote above it. */
  ghost predicate AllCareful(vs: seq<Address>, steps: seq<Step>) {
    steps != [] ==>
      var n := |steps| - 1;
      AllCareful(vs, steps[..n]) && Careful(VotesCast(vs, steps[..n]), vs, steps[n])
  }

  /** The asks kept under a key are for that height and round, from different senders. */
  ghost predicate AsksOk(asks: Asks, received: set<Ask>) {
    forall k :: k in asks ==>
      && (forall i :: 0 <= i < |asks[k]| ==>
            asks[k][i].height == k.0 && asks[k][i].newRound == k.1 && asks[k][i] in received)
      && (forall i, j :: 0 <= i < j < |asks[k]| ==> asks[k][i].sender != asks[k][j].sender)
  }

  /** All votes at one (height, round) name one block. */
  predicate OneBlock(votes: set<Ballot>) {
    forall v, w :: v in votes && w in votes && v.height == w.height && v.round == w.round ==> v.block == w.block
  }

  ghost predicate VotesOk(s: State, votes: set<Ballot>) {
    && OneBlock(votes)
    && (forall v :: v in votes ==>
          && NotBehind(v.height, v.round, s.height, s.round.round)
          && (v.height == s.height && v.round == s.round.round ==> s.round.votedFor == Some(v.block)))
  }

  // ----- what one step does to (height, round) and the vote

  lemma AskKeepsPlace(s: State, n: nat, ask: Ask, signed: Result<bool, string>)
    ensures var t := OnAsk(s, n, ask, signed).0;
            t.height == s.height && t.round.height == s.round.height &&
                (t.round == s.round || t.round.round > s.round.round)
  {
    if ask.height == s.round.height && ask.newRound > s.round.round && signed == Ok(true) {
      assert AddAsk(s, ask, QuorumSize(n)).0.round == s.round;
    }
  }

  lemma FinalizeMoves(s: State, n: nat, header: Header, qc: Cert)
    ensures var t := Finalized(s, n, header, qc).0;
            if qc.block == header.hash && qc.voters >= QuorumSize(n)
            then t.height == HeightAfter(header) && t.round == FreshRound(t.height, t.epoch, 0)
            else t == s
  {
  }

  /** The round state is always that of the node's height. */
  lemma {:induction false} HeightsMatch(vs: seq<Address>, steps: seq<Step>)
    ensures var s := StateAfter(vs, steps); s.round.height == s.height
  {
    if steps != [] {
      var k := |steps| - 1;
      HeightsMatch(vs, steps[..k]);
      StepKeepsHeights(StateAfter(vs, steps[..k]), vs, steps[k]);
    }
  }

  lemma StepKeepsHeights(s: State, vs: seq<Address>, step: Step)
    requires s.round.height == s.height
    ensures var t := After(s, vs, step); t.round.height == t.height
  {
    match step
    case Proposal(_, _, _) =>
    case ViewChange(ask, signed) => AskKeepsPlace(s, |vs|, ask, signed);
    case Finalize(header, qc) => FinalizeMoves(s, |vs|, header, qc);
  }

  lemma StepMovesForward(s: State, vs: seq<Address>, step: Step)
    requires s.round.height == s.height && Timely(s, vs, step)
    ensures var t := After(s, vs, step); NotBehind(s.height, s.round.round, t.height, t.round.round)
  {
    match step
    case Proposal(_, _, _) =>
    case ViewChange(ask, signed) => AskKeepsPlace(s, |vs|, ask, signed);
    case Finalize(header, qc) => FinalizeMoves(s, |vs|, header, qc);
  }

  /** Finalising moves the node forward exactly when the block is not from below its height. */
  lemma FinalizeForwardIff(s: State, n: nat, header: Header, qc: Cert)
    requires qc.block == header.hash && qc.voters >= QuorumSize(n) && header.height < MAX_U64
    ensures var t := Finalized(s, n, header, qc).0;
            (t.height > s.height <==> header.height >= s.height) &&
            (NotBehind(s.height, s.round.round, t.height, t.round.round) <==>
               header.height >= s.height || (header.height + 1 == s.height && s.round.round == 0))
  {
    FinalizeMoves(s, n, header, qc);
  }

  lemma ProposalKeepsVotes(s: State, vs: seq<Address>, ws: Weights, header: Header, c: Checks, votes: set<Ballot>)
    requires s.round.height == s.height && VotesOk(s, votes)
    ensures var step := Proposal(header, ws, c); VotesOk(After(s, vs, step), With(votes, CastBy(s, vs, step)))
  {
  }

  lemma AskKeepsVotes(s: State, vs: seq<Address>, ask: Ask, signed: Result<bool, string>, votes: set<Ballot>)
    requires VotesOk(s, votes)
    ensures VotesOk(OnAsk(s, |vs|, ask, signed).0, votes)
  {
    AskKeepsPlace(s, |vs|, ask, signed);
  }

  lemma FinalizeKeepsVotes(s: State, vs: seq<Address>, header: Header, qc: Cert, votes: set<Ballot>)
    requires OneBlock(votes) && Accepts(vs, header, qc) && NoVoteAbove(votes, header)
    ensures VotesOk(Finalized(s, |vs|, header, qc).0, votes)
  {
    FinalizeMoves(s, |vs|, header, qc);
  }

  lemma StepKeepsVotes(s: State, vs: seq<Address>, step: Step, votes: set<Ballot>)
    requires s.round.height == s.height && Careful(votes, vs, step) && VotesOk(s, votes)
    ensures VotesOk(After(s, vs, step), With(votes, CastBy(s, vs, step)))
  {
    match step
    case Proposal(header, ws, c) => ProposalKeepsVotes(s, vs, ws, header, c, votes);
    case ViewChange(ask, signed) => AskKeepsVotes(s, vs, ask, signed, votes);
    case Finalize(header, qc) =>
      FinalizeMoves(s, |vs|, header, qc);
      if Accepts(vs, header, qc) {
        FinalizeKeepsVotes(s, vs, header, qc, votes);
      }
  }

  // ----- one block per (height, round)

  lemma {:induction false} RunKeepsVotes(vs: seq<Address>, steps: seq<Step>)
    requires AllCareful(vs, steps)
    ensures VotesOk(StateAfter(vs, steps), VotesCast(vs, steps))
  {
    if steps != [] {
      var k := |steps| - 1;
      RunKeepsVotes(vs, steps[..k]);
      HeightsMatch(vs, steps[..k]);
      StepKeepsVotes(StateAfter(vs, steps[..k]), vs, steps[k], VotesCast(vs, steps[..k]));
    }
  }

  /** One block per (height, round), on every run that never finalises a block below a height
      it has voted at. */
  lemma OneBlockPerRound(vs: seq<Address>, steps: seq<Step>)
    requires AllCareful(vs, steps)
    ensures OneBlock(VotesCast(vs, steps))
  {
    RunKeepsVotes(vs, steps);
  }

  /** A timely run is a shorter one and a last step. */
  lemma LastTimely(vs: seq<Address>, steps: seq<Step>, k: nat) returns (early: seq<Step>, step: Step)
    requires k < |steps| && TimelyFrom(vs, steps, k)
    ensures steps == early + [step] && k <= |early| < |steps| && early[..k] == steps[..k]
    ensures TimelyFrom(vs, early, k) && Timely(StateAfter(vs, early), vs, step)
  {
    early, step := steps[..|steps| - 1], steps[|steps| - 1];
  }

  lemma CarefulOneMore(vs: seq<Address>, steps: seq<Step>, step: Step)
    requires AllCareful(vs, steps) && Careful(VotesCast(vs, steps), vs, step)
    ensures AllCareful(vs, steps + [step])
  {
    assert (steps + [step])[..|steps|] == steps;
  }

  /** A run that finalises in time is one of those. */
  lemma {:induction false} TimelyIsCareful(vs: seq<Address>, steps: seq<Step>)
    requires TimelyFrom(vs, steps, 0)
    ensures AllCareful(vs, steps)
    decreases |steps|
  {
    if steps != [] {
      var early, step := LastTimely(vs, steps, 0);
      TimelyIsCareful(vs, early);
      RunKeepsVotes(vs, early);
      TimelyStepIsCareful(StateAfter(vs, early), vs, VotesCast(vs, early), step);
      CarefulOneMore(vs, early, step);
    }
  }

  lemma TimelyStepIsCareful(s: State, vs: seq<Address>, votes: set<Ballot>, step: Step)
    requires VotesOk(s, votes) && Timely(s, vs, step)
    ensures Careful(votes, vs, step)
  {
  }

  /** Finalising in time keeps the votes in order from wherever they are. */
  lemma {:induction false} TimelyKeepsVotes(vs: seq<Address>, steps: seq<Step>, k: nat)
    requires k <= |steps| && TimelyFrom(vs, steps, k) && VotesOk(StateAfter(vs, steps[..k]), VotesCast(vs, steps[..k]))
    ensures VotesOk(StateAfter(vs, steps), VotesCast(vs, steps))
    decreases |steps|
  {
    if k == |steps| {
      assert steps[..k] == steps;
    } else {
      var early, step := LastTimely(vs, steps, k);
      TimelyKeepsVotes(vs, early, k);
      HeightsMatch(vs, early);
      TimelyStepIsCareful(StateAfter(vs, early), vs, VotesCast(vs, early), step);
      StepKeepsVotes(StateAfter(vs, early), vs, step, VotesCast(vs, early));
      OneMoreStep(vs, early, step);
    }
  }

  /** If the run goes on like this and finalises in time from here on, it has one block per
      (height, round). */
  ghost predicate Harmless(vs: seq<Address>, steps: seq<Step>, more: seq<Step>) {
    TimelyFrom(vs, steps + more, |steps|) ==> OneBlock(VotesCast(vs, steps + more))
  }

  /** The exact condition: whatever a run has done so far, finalising one more block keeps one
      block per (height, round), however the run goes on with timely finalisation, if and only
      if no vote has been cast at the height this puts the node at, or above. */
  lemma FinalizingIsSafeIff(vs: seq<Address>, steps: seq<Step>, header: Header, qc: Cert)
    requires OneBlock(VotesCast(vs, steps)) && Accepts(vs, header, qc)
    ensures NoVoteAbove(VotesCast(vs, steps), header) <==>
            forall more :: Harmless(vs, steps + [Finalize(header, qc)], more)
  {
    var done := steps + [Finalize(header, qc)];
    OneMoreStep(vs, steps, Finalize(header, qc));
    if NoVoteAbove(VotesCast(vs, steps), header) {
      FinalizeKeepsVotes(StateAfter(vs, steps), vs, header, qc, VotesCast(vs, steps));
      forall more ensures Harmless(vs, done, more) {
        assert (done + more)[..|done|] == done;
        if TimelyFrom(vs, done + more, |done|) {
          TimelyKeepsVotes(vs, done + more, |done|);
        }
      }
    } else {
      var v :| v in VotesCast(vs, steps) && v.height >= HeightAfter(header);
      var more, w := VotesTwice(vs, [], steps, header, qc, v);
    }
  }

  lemma {:induction false} VotersHaveMembers(vs: seq<Address>, steps: seq<Step>)
    requires VotesCast(vs, steps) != {}
    ensures vs != []
  {
    var k := |steps| - 1;
    if VotesCast(vs, steps[..k]) != {} {
      VotersHaveMembers(vs, steps[..k]);
    }
  }

  /** A proposal of the elected leader that the node votes for. */
  lemma VotableProposal(s: State, vs: seq<Address>, ws: Weights, round: U32, block: Hash) returns (step: Step)
    requires vs != [] && s.round == FreshRound(s.height, s.epoch, 0)
    ensures step.Proposal? && step.weights == ws && CastBy(s, vs, step) == Some(Ballot(s.height, round, block))
  {
    var at := SomeoneLeads(vs, ws, TurnOf(s.height, round));
    var epoch := if s.lockedQc.None? then 0 else s.lockedQc.value.epoch;
    step := Proposal(Header(s.height, epoch, round, vs[at], block), ws, Checks(Ok(true), true, true));
    assert Leads(vs, ws, s.height, round, vs[at]);
  }

  /** After a block is finalised from below a height at which the node has voted, it goes on,
      finalising in time, to vote for another block at the same height and round. */
  lemma VotesTwice(vs: seq<Address>, ws: Weights, steps: seq<Step>, header: Header, qc: Cert, v: Ballot)
    returns (more: seq<Step>, w: Ballot)
    requires Accepts(vs, header, qc) && v in VotesCast(vs, steps) && v.height >= HeightAfter(header)
    ensures w.height == v.height && w.round == v.round && w.block != v.block
    ensures var run := steps + [Finalize(header, qc)] + more;
            TimelyFrom(vs, run, |steps| + 1) && v in VotesCast(vs, run) && w in VotesCast(vs, run)
    ensures !Harmless(vs, steps + [Finalize(header, qc)], more)
  {
    VotersHaveMembers(vs, steps);
    var first := steps + [Finalize(header, qc)];
    FinalizeStep(vs, steps, header, qc);
    var there, climb := ClimbsTo(vs, first, v.height);
    w := v.(block := v.block + 1);
    var vote := VotableProposal(StateAfter(vs, there), vs, ws, v.round, w.block);
    OneMoreStep(vs, there, vote);
    more := climb + [vote];
    assert first + more == there + [vote];
    TimelyOneMore(vs, there, vote, |first|);
  }

  /** A finalised block puts the node at the first round of its height, and casts no vote. */
  lemma FinalizeStep(vs: seq<Address>, steps: seq<Step>, header: Header, qc: Cert)
    requires Accepts(vs, header, qc)
    ensures var t := StateAfter(vs, steps + [Finalize(header, qc)]);
            t.height == HeightAfter(header) && t.round == FreshRound(t.height, t.epoch, 0)
    ensures VotesCast(vs, steps + [Finalize(header, qc)]) == VotesCast(vs, steps)
  {
    OneMoreStep(vs, steps, Finalize(header, qc));
    FinalizeMoves(StateAfter(vs, steps), |vs|, header, qc);
  }

  lemma TimelyOneMore(vs: seq<Address>, steps: seq<Step>, step: Step, k: nat)
    requires TimelyFrom(vs, steps, k) && Timely(StateAfter(vs, steps), vs, step)
    ensures TimelyFrom(vs, steps + [step], k)
  {
    assert (steps + [step])[..|steps|] == steps;
  }

  /** A node that has just finalised a block gets to any height from its own on by finalising in
      time, its votes untouched. */
  lemma ClimbsTo(vs: seq<Address>, steps: seq<Step>, height: U64) returns (there: seq<Step>, climb: seq<Step>)
    requires var s := StateAfter(vs, steps); s.height <= height && s.round == FreshRound(s.height, s.epoch, 0)
    ensures there == steps + climb && TimelyFrom(vs, there, |steps|) && VotesCast(vs, there) == VotesCast(vs, steps)
    ensures var t := StateAfter(vs, there); t.height == height && t.round == FreshRound(t.height, t.epoch, 0)
  {
    if StateAfter(vs, steps).height == height {
      there, climb := steps, [];
    } else {
      var step := Finalize(Header(height - 1, 0, 0, 0, 0), Cert(0, 0, 0, QuorumSize(|vs|)));
      FinalizeStep(vs, steps, step.header, step.qc);
      TimelyOneMore(vs, steps, step, |steps|);
      climb := [step];
      there := steps + climb;
    }
  }

  /** A run that finalises a block and votes at the height this leads to. */
  lemma VotesAbove(vs: seq<Address>, ws: Weights, header: Header, qc: Cert) returns (steps: seq<Step>, v: Ballot)
    requires vs != [] && Accepts(vs, header, qc)
    ensures v in VotesCast(vs, steps) && v.height == HeightAfter(header)
  {
    var first := [] + [Finalize(header, qc)];
    FinalizeStep(vs, [], header, qc);
    v := Ballot(HeightAfter(header), 0, 0);
    var vote := VotableProposal(StateAfter(vs, first), vs, ws, v.round, v.block);
    OneMoreStep(vs, first, vote);
    steps := first + [vote];
  }

  /** So the guarantee is lost in every committee: a block is finalised once more, from below the
      height the node has moved on to and voted at, and it votes for two blocks there. */
  lemma OldBlockForgetsVote(vs: seq<Address>, ws: Weights, header: Header, qc: Cert)
    returns (steps: seq<Step>, v: Ballot, w: Ballot)
    requires vs != [] && Accepts(vs, header, qc)
    ensures v in VotesCast(vs, steps) && w in VotesCast(vs, steps)
    ensures v.height == w.height && v.round == w.round && v.block != w.block
  {
    var before: seq<Step>, more: seq<Step>;
    before, v := VotesAbove(vs, ws, header, qc);
    more, w := VotesTwice(vs, ws, before, header, qc, v);
    steps := before + [Finalize(header, qc)] + more;
  }

  /** Every vote of a run is for a signed, recent proposal of the leader elected for its height
      and round, received at that height, not from an earlier round, and not against the lock. */
  lemma {:induction false} VotesAreChecked(vs: seq<Address>, steps: seq<Step>, v: Ballot) returns (k: nat)
    requires v in VotesCast(vs, steps)
    ensures k < |steps| && steps[k].Proposal?
    ensures var Proposal(header, ws, c) := steps[k];
            var s := StateAfter(vs, steps[..k]);
            && v == Ballot(header.height, header.round, header.hash)
            && Leads(vs, ws, v.height, v.round, header.proposer)
            && c.signed == Ok(true) && c.recent && SafeToVote(s, header, c.onLock)
            && s.height == v.height && s.round.round <= v.round
  {
    var n := |steps| - 1;
    if v in VotesCast(vs, steps[..n]) {
      k := VotesAreChecked(vs, steps[..n], v);
      assert steps[..n][..k] == steps[..k];
    } else {
      HeightsMatch(vs, steps[..n]);
      k := n;
    }
  }

  /** (height, round) only moves forward. */
  lemma {:induction false} OnlyForward(vs: seq<Address>, steps: seq<Step>, k: nat)
    requires TimelyFrom(vs, steps, k) && k <= |steps|
    ensures var s, t := StateAfter(vs, steps[..k]), StateAfter(vs, steps);
            NotBehind(s.height, s.round.round, t.height, t.round.round)
    decreases |steps|
  {
    if k == |steps| {
      assert steps[..k] == steps;
    } else {
      var early, step := LastTimely(vs, steps, k);
      OnlyForward(vs, early, k);
      HeightsMatch(vs, early);
      StepMovesForward(StateAfter(vs, early), vs, step);
      OneMoreStep(vs, early, step);
    }
  }

  // ----- view changes

  lemma AskIsKept(s: State, ask: Ask, quorum: nat, received: set<Ask>)
    requires AsksOk(s.asks, received)
    ensures AsksOk(AddAsk(s, ask, quorum).0.asks, received + {ask})
  {
    var list := AsksFor(s.asks, ask.height, ask.newRound);
    if !AskedAlready(list, ask.sender) {
      assert AddAsk(s, ask, quorum).0.asks == s.asks[(ask.height, ask.newRound) := list + [ask]];
      ListGains(s.asks, received, ask);
    }
  }

  lemma ListGains(asks: Asks, received: set<Ask>, ask: Ask)
    requires AsksOk(asks, received) && !AskedAlready(AsksFor(asks, ask.height, ask.newRound), ask.sender)
    ensures AsksOk(asks[(ask.height, ask.newRound) := AsksFor(asks, ask.height, ask.newRound) + [ask]],
                   received + {ask})
  {
  }

  lemma {:induction false} RunKeepsAsks(vs: seq<Address>, steps: seq<Step>)
    ensures AsksOk(StateAfter(vs, steps).asks, AsksReceived(steps))
  {
    if steps != [] {
      var k := |steps| - 1;
      var s := StateAfter(vs, steps[..k]);
      RunKeepsAsks(vs, steps[..k]);
      ReceivedSoFar(steps);
      StepKeepsAsks(s, vs, steps[k], AsksReceived(steps[..k]));
    }
  }

  function AskedBy(step: Step): set<Ask> {
    if step.ViewChange? && step.signed == Ok(true) then {step.ask} else {}
  }

  lemma ReceivedSoFar(steps: seq<Step>)
    requires steps != []
    ensures AsksReceived(steps) == AsksReceived(steps[..|steps| - 1]) + AskedBy(steps[|steps| - 1])
  {
    assert steps == steps[..|steps| - 1] + [steps[|steps| - 1]];
  }

  lemma StepKeepsAsks(s: State, vs: seq<Address>, step: Step, received: set<Ask>)
    requires AsksOk(s.asks, received)
    ensures AsksOk(After(s, vs, step).asks, received + AskedBy(step))
  {
    match step
    case Proposal(_, _, _) =>
    case ViewChange(ask, signed) => AskKeepsAsks(s, |vs|, ask, signed, received);
    case Finalize(header, qc) => FinalizeKeepsAsks(s, |vs|, header, qc, received);
  }

  lemma AskKeepsAsks(s: State, n: nat, ask: Ask, signed: Result<bool, string>, received: set<Ask>)
    requires AsksOk(s.asks, received)
    ensures AsksOk(OnAsk(s, n, ask, signed).0.asks, received + AskedBy(ViewChange(ask, signed)))
  {
    OnAskAsks(s, n, ask, signed);
    if signed == Ok(true) {
      AskIsKept(s, ask, QuorumSize(n), received);
      MoreReceived(s.asks, received, received + {ask});
    }
  }

  lemma OnAskAsks(s: State, n: nat, ask: Ask, signed: Result<bool, string>)
    ensures var asks := OnAsk(s, n, ask, signed).0.asks;
            asks == s.asks || (signed == Ok(true) && asks == AddAsk(s, ask, QuorumSize(n)).0.asks)
  {
    if signed == Ok(true) && ask.height == s.round.height && ask.newRound > s.round.round {
      var (t, answer) := AddAsk(s, ask, QuorumSize(n));
      assert OnAsk(s, n, ask, signed).0.asks == t.asks;
    }
  }

  lemma MoreReceived(asks: Asks, received: set<Ask>, more: set<Ask>)
    requires AsksOk(asks, received) && received <= more
    ensures AsksOk(asks, more)
  {
  }

  lemma FinalizeKeepsAsks(s: State, n: nat, header: Header, qc: Cert, received: set<Ask>)
    requires AsksOk(s.asks, received)
    ensures AsksOk(Finalized(s, n, header, qc).0.asks, received)
  {
    var t := Finalized(s, n, header, qc).0;
    assert forall k :: k in t.asks ==> k in s.asks && t.asks[k] == s.asks[k];
  }

  /** The asks received on the run for this round at this height. */
  function AsksOf(steps: seq<Step>, height: U64, round: U32): set<Ask> {
    set ask | ask in AsksReceived(steps) && ask.height == height && ask.newRound == round
  }

  function Senders(asks: set<Ask>): set<Address> {
    set ask | ask in asks :: ask.sender
  }

  function Keys(asks: set<Ask>): set<Key> {
    set ask | ask in asks :: ask.key
  }

  /** The last step of the run is a view change that moves the node to another round. */
  ghost predicate Moves(vs: seq<Address>, steps: seq<Step>) {
    && steps != [] && steps[|steps| - 1].ViewChange?
    && StateAfter(vs, steps).round.round != StateAfter(vs, steps[..|steps| - 1]).round.round
  }

  /** The asks that were received for the round the run has moved to. */
  ghost function Backing(vs: seq<Address>, steps: seq<Step>): set<Ask> {
    var t := StateAfter(vs, steps);
    AsksOf(steps, t.round.height, t.round.round)
  }

  lemma {:induction false} DistinctSenders(list: seq<Ask>, n: nat, senders: set<Address>)
    requires n <= |list| && forall i :: 0 <= i < n ==> list[i].sender in senders
    requires forall i, j :: 0 <= i < j < |list| ==> list[i].sender != list[j].sender
    ensures n <= |senders|
  {
    if n > 0 {
      DistinctSenders(list, n - 1, senders - {list[n - 1].sender});
    }
  }

  /** Each move to a new round at the same height by a view change is backed by quorum-size
      distinct senders who asked for that same round. */
  lemma ViewChangeIsBacked(vs: seq<Address>, steps: seq<Step>)
    requires Moves(vs, steps)
    ensures |Senders(Backing(vs, steps))| >= QuorumSize(|vs|)
  {
    var k := |steps| - 1;
    var t := StateAfter(vs, steps);
    MoveByAsk(StateAfter(vs, steps[..k]), |vs|, steps[k].ask, steps[k].signed);
    RunKeepsAsks(vs, steps);
    KeptAsksCount(t.asks, steps, t.round.height, t.round.round);
  }

  lemma MoveByAsk(s: State, n: nat, ask: Ask, signed: Result<bool, string>)
    requires OnAsk(s, n, ask, signed).0.round.round != s.round.round
    ensures var t := OnAsk(s, n, ask, signed).0;
            && |AsksFor(t.asks, t.round.height, t.round.round)| >= QuorumSize(n)
            && signed == Ok(true) && t.round.height == ask.height && t.round.round == ask.newRound > 0
  {
    AnswerIsBacked(s, ask, QuorumSize(n));
  }

  lemma AnswerIsBacked(s: State, ask: Ask, quorum: nat)
    ensures var (t, answer) := AddAsk(s, ask, quorum);
            t.round == s.round && (answer.Quorum? ==> |AsksFor(t.asks, ask.height, ask.newRound)| >= quorum)
  {
    var list := AsksFor(s.asks, ask.height, ask.newRound);
    assert AsksFor(Recorded(s, ask).asks, ask.height, ask.newRound) == list + [ask];
  }

  lemma KeptAsksCount(asks: Asks, steps: seq<Step>, height: U64, round: U32)
    requires AsksOk(asks, AsksReceived(steps))
    ensures |AsksFor(asks, height, round)| <= |Senders(AsksOf(steps, height, round))|
  {
    var list := AsksFor(asks, height, round);
    DistinctSenders(list, |list|, Senders(AsksOf(steps, height, round)));
  }

  // ----- view changes by key

  /** What a signature is checked against: the key, and the round, height and epoch asked for.
      The sender named is not part of it. */
  type SignatureCheck = (Key, U32, U64, U64, Signature) -> Result<bool, string>

  function CheckOf(check: SignatureCheck, ask: Ask): Result<bool, string> {
    check(ask.key, ask.newRound, ask.height, ask.epoch, ask.sig)
  }

  predicate Checked(check: SignatureCheck, steps: seq<Step>) {
    forall step :: step in steps && step.ViewChange? ==> step.signed == CheckOf(check, step.ask)
  }

  /** No key asks under two names. */
  predicate OneName(asks: set<Ask>) {
    forall a, b :: a in asks && b in asks && a.key == b.key ==> a.sender == b.sender
  }

  lemma {:induction false} NamesWithinKeys(asks: set<Ask>)
    requires OneName(asks)
    ensures |Senders(asks)| <= |Keys(asks)|
  {
    if asks != {} {
      var a :| a in asks;
      var rest := asks - {a};
      NamesWithinKeys(rest);
      OneAskMore(rest, a);
      assert asks == rest + {a};
      if a.key in Keys(rest) {
        var b :| b in rest && b.key == a.key;
        assert a.sender == b.sender && a.sender in Senders(rest);
      }
    }
  }

  lemma OneAskMore(asks: set<Ask>, a: Ask)
    ensures Senders(asks + {a}) == Senders(asks) + {a.sender} && Keys(asks + {a}) == Keys(asks) + {a.key}
    ensures |Senders(asks + {a})| <= |Senders(asks)| + if a.sender in Senders(asks) then 0 else 1
    ensures |Keys(asks + {a})| == |Keys(asks)| + if a.key in Keys(asks) then 0 else 1
  {
    assert a.sender in Senders(asks) ==> Senders(asks) + {a.sender} == Senders(asks);
    assert a.key in Keys(asks) ==> Keys(asks) + {a.key} == Keys(asks);
  }

  /** A move is backed by quorum-size distinct keys if no key asked for it under two names. */
  lemma BackedByKeys(vs: seq<Address>, steps: seq<Step>)
    requires Moves(vs, steps) && OneName(Backing(vs, steps))
    ensures |Keys(Backing(vs, steps))| >= QuorumSize(|vs|)
  {
    ViewChangeIsBacked(vs, steps);
    NamesWithinKeys(Backing(vs, steps));
  }

  /** On every run under this signature check, moves are backed by quorum-size distinct keys. */
  ghost predicate KeysAlwaysBack(vs: seq<Address>, check: SignatureCheck) {
    forall steps :: Checked(check, steps) && Moves(vs, steps) ==> |Keys(Backing(vs, steps))| >= QuorumSize(|vs|)
  }

  /** No signature on a later round passes the check. */
  ghost predicate NonePasses(check: SignatureCheck) {
    forall ask: Ask :: ask.newRound > 0 ==> CheckOf(check, ask) != Ok(true)
  }

  /** Signatures alone do not see to that: the check does not cover the name. A quorum of names
      is a quorum of keys on every run exactly if one ask is a quorum, or none ever passes. */
  lemma KeysAlwaysBackIff(vs: seq<Address>, check: SignatureCheck)
    ensures KeysAlwaysBack(vs, check) <==> |vs| <= 1 || NonePasses(check)
  {
    if |vs| <= 1 || NonePasses(check) {
      forall steps | Checked(check, steps) && Moves(vs, steps)
        ensures |Keys(Backing(vs, steps))| >= QuorumSize(|vs|)
      {
        MoveHasKey(vs, check, steps);
      }
    } else {
      var ask: Ask :| ask.newRound > 0 && CheckOf(check, ask) == Ok(true);
      var steps := OneKeyMoves(vs, check, ask);
    }
  }

  lemma MoveHasKey(vs: seq<Address>, check: SignatureCheck, steps: seq<Step>)
    requires Checked(check, steps) && Moves(vs, steps)
    ensures !NonePasses(check) && |Keys(Backing(vs, steps))| >= 1
  {
    var k := |steps| - 1;
    var ask := steps[k].ask;
    assert steps[k] in steps;
    MoveByAsk(StateAfter(vs, steps[..k]), |vs|, ask, steps[k].signed);
    assert ask in Backing(vs, steps);
    assert Keys(Backing(vs, steps)) >= {ask.key};
    SubsetSize({ask.key}, Keys(Backing(vs, steps)));
  }

  /** The same ask under the names 0, ..., n - 1. */
  function Named(ask: Ask, n: nat): seq<Ask> {
    if n == 0 then [] else Named(ask, n - 1) + [ask.(sender := n - 1)]
  }

  lemma {:induction false} NamedSenders(ask: Ask, n: nat)
    ensures |Named(ask, n)| == n && forall a :: a in Named(ask, n) ==> a.sender < n
  {
    if n > 0 {
      NamedSenders(ask, n - 1);
    }
  }

  /** An ask short of the quorum is recorded; one that completes it moves the round. */
  lemma OneMoreAsk(s: State, n: nat, ask: Ask)
    requires s.round.height == ask.height && s.round.round < ask.newRound
    requires !AskedAlready(AsksFor(s.asks, ask.height, ask.newRound), ask.sender)
    ensures var t, list := OnAsk(s, n, ask, Ok(true)).0, AsksFor(s.asks, ask.height, ask.newRound);
            if |list| + 1 < QuorumSize(n)
            then t.round == s.round && AsksFor(t.asks, ask.height, ask.newRound) == list + [ask]
            else t.round.round == ask.newRound && t.round.height == ask.height
  {
    AnswerIsBacked(s, ask, QuorumSize(n));
    assert AsksFor(Recorded(s, ask).asks, ask.height, ask.newRound) ==
           AsksFor(s.asks, ask.height, ask.newRound) + [ask];
  }

  /** The node can still move to the round, and the asks it holds for it are the first `n`. */
  ghost predicate Holding(s: State, ask: Ask, n: nat) {
    && s.round.height == ask.height && s.round.round < ask.newRound
    && AsksFor(s.asks, ask.height, ask.newRound) == Named(ask, n)
  }

  lemma NextName(s: State, q: nat, ask: Ask, n: nat)
    requires Holding(s, ask, n)
    ensures var t := OnAsk(s, q, ask.(sender := n), Ok(true)).0;
            if n + 1 < QuorumSize(q) then Holding(t, ask, n + 1) && t.round == s.round
            else t.round.round == ask.newRound && t.round.height == ask.height
  {
    NamedSenders(ask, n);
    OneMoreAsk(s, q, ask.(sender := n));
  }

  /** The state once the first `n` have arrived. */
  function Collected(s: State, q: nat, ask: Ask, n: nat): State {
    if n == 0 then s else OnAsk(Collected(s, q, ask, n - 1), q, ask.(sender := n - 1), Ok(true)).0
  }

  /** Finalised blocks, and the ask under some names. */
  predicate OnlyThisAsk(steps: seq<Step>, ask: Ask) {
    forall step :: step in steps ==>
      step.Finalize? || step == ViewChange(ask.(sender := AskOf(step, ask).sender), Ok(true))
  }

  function AskOf(step: Step, otherwise: Ask): Ask {
    if step.ViewChange? then step.ask else otherwise
  }

  lemma {:induction false} Arrive(vs: seq<Address>, first: seq<Step>, ask: Ask, n: nat) returns (steps: seq<Step>)
    requires OnlyThisAsk(first, ask)
    ensures StateAfter(vs, steps) == Collected(StateAfter(vs, first), |vs|, ask, n) && OnlyThisAsk(steps, ask)
  {
    if n == 0 {
      steps := first;
    } else {
      var before := Arrive(vs, first, ask, n - 1);
      OneMoreStep(vs, before, ViewChange(ask.(sender := n - 1), Ok(true)));
      steps := before + [ViewChange(ask.(sender := n - 1), Ok(true))];
    }
  }

  lemma {:induction false} NamesCollect(s: State, q: nat, ask: Ask, n: nat)
    requires n < QuorumSize(q) && Holding(s, ask, 0)
    ensures Holding(Collected(s, q, ask, n), ask, n) && Collected(s, q, ask, n).round == s.round
  {
    if n > 0 {
      NamesCollect(s, q, ask, n - 1);
      NextName(Collected(s, q, ask, n - 1), q, ask, n - 1);
    }
  }

  /** The last of a quorum moves the round. */
  lemma QuorumCollected(s: State, q: nat, ask: Ask)
    requires Holding(s, ask, 0)
    ensures var before, t := Collected(s, q, ask, QuorumSize(q) - 1), Collected(s, q, ask, QuorumSize(q));
            before.round == s.round && t.round.round == ask.newRound && t.round.height == ask.height
  {
    NamesCollect(s, q, ask, QuorumSize(q) - 1);
    NextName(Collected(s, q, ask, QuorumSize(q) - 1), q, ask, QuorumSize(q) - 1);
  }

  /** A run to the first round of any height, in which nobody has asked for anything. */
  lemma ToHeight(vs: seq<Address>, height: U64) returns (steps: seq<Step>)
    ensures forall step :: step in steps ==> step.Finalize?
    ensures var s := StateAfter(vs, steps); s.round.height == height && s.round.round == 0
    ensures forall round: U32 :: AsksFor(StateAfter(vs, steps).asks, height, round) == []
  {
    steps := [];
    if height > 0 {
      var header, qc := Header(height - 1, 0, 0, 0, 0), Cert(0, 0, 0, QuorumSize(|vs|));
      FinalizeStep(vs, [], header, qc);
      steps := [] + [Finalize(header, qc)];
    }
    RunKeepsAsks(vs, steps);
    assert AsksReceived(steps) == {};
  }

  /** In a committee of two or more, asks under one key can make the move. */
  lemma OneKeyMoves(vs: seq<Address>, check: SignatureCheck, ask: Ask) returns (steps: seq<Step>)
    requires |vs| > 1 && ask.newRound > 0 && CheckOf(check, ask) == Ok(true)
    ensures Checked(check, steps) && Moves(vs, steps) && |Keys(Backing(vs, steps))| < QuorumSize(|vs|)
  {
    steps := NamesMove(vs, ask);
    OnlyOneKey(check, steps, ask);
    SubsetSize(Keys(Backing(vs, steps)), {ask.key});
  }

  lemma NamesMove(vs: seq<Address>, ask: Ask) returns (steps: seq<Step>)
    requires ask.newRound > 0
    ensures Moves(vs, steps) && OnlyThisAsk(steps, ask)
  {
    var q := QuorumSize(|vs|);
    var first := ToHeight(vs, ask.height);
    QuorumCollected(StateAfter(vs, first), |vs|, ask);
    var last := ViewChange(ask.(sender := q - 1), Ok(true));
    var before := Arrive(vs, first, ask, q - 1);
    assert After(StateAfter(vs, before), vs, last) == Collected(StateAfter(vs, first), |vs|, ask, q);
    MovesBy(vs, before, last);
    steps := before + [last];
  }

  lemma MovesBy(vs: seq<Address>, before: seq<Step>, step: Step)
    requires step.ViewChange?
    requires After(StateAfter(vs, before), vs, step).round.round != StateAfter(vs, before).round.round
    ensures Moves(vs, before + [step])
  {
    OneMoreStep(vs, before, step);
    assert (before + [step])[..|before|] == before;
  }

  lemma OnlyOneKey(check: SignatureCheck, steps: seq<Step>, ask: Ask)
    requires CheckOf(check, ask) == Ok(true) && OnlyThisAsk(steps, ask)
    ensures Checked(check, steps) && forall a :: a in AsksReceived(steps) ==> a.key == ask.key
  {
  }

  /** Locks only ever move to a newer certificate. */
  lemma LockOnlyRises(s: State, vs: seq<Address>, step: Step)
    ensures var t := After(s, vs, step);
            t.lockedQc == s.lockedQc || (t.lockedQc.Some? && Newer(t.lockedQc.value, s.lockedQc))
    ensures var t := After(s, vs, step);
            t.highQc == s.highQc || (t.highQc.Some? && Newer(t.highQc.value, s.highQc))
  {
    if step.ViewChange? && step.signed == Ok(true) {
      HighQcRises(s, step.ask, QuorumSize(|vs|));
    }
  }

  lemma HighQcRises(s: State, ask: Ask, quorum: nat)
    ensures var t := AddAsk(s, ask, quorum).0;
            t.lockedQc == s.lockedQc && (t.highQc == s.highQc || (t.highQc.Some? && Newer(t.highQc.value, s.highQc)))
    ensures var (t, answer) := AddAsk(s, ask, quorum);
            answer.Quorum? && answer.best.Some? ==> AddQc(t, answer.best.value).highQc == t.highQc
  {
  }
}

/**
 A committee of Tendermint nodes, some of them faulty, over a network that may delay, lose,
 repeat and reorder messages. A correct node may crash at any time and restart from what it
 last wrote to disk; it writes whenever a call made it vote, before the vote leaves it.
 */
module TendermintNetwork {
  import opened Common
  import opened TendermintState
  import opened TendermintInvariants

  /** The committee is 0, ..., n - 1; `nodes` are the correct participants, observers included. */
  datatype World = World(height: U64, n: nat, faulty: set<nat>, nodes: set<nat>, timeouts: Timeouts)

  predicate WorldOk(w: World) {
    w.faulty <= Below(w.n) && w.faulty !! w.nodes && Below(w.n) <= w.faulty + w.nodes
  }

  predicate FewFaults(w: World) {
    3 * |w.faulty| < w.n
  }

  function Cfg(w: World, p: nat): Config {
    Config(w.height, w.n, if p < w.n then Some(p) else None, w.timeouts)
  }

  datatype SignedVote = SignedVote(from: nat, kind: VoteKind, round: Round, ballot: Ballot)
  datatype SignedOffer = SignedOffer(from: nat, round: Round, value: ValueId, pol: Option<Round>)
  datatype Decided = Decided(who: nat, round: Round, value: ValueId)

  /** All that correct nodes ever sent and decided, and the furthest round one ever reached. */
  datatype History = History(
    votes: set<SignedVote>, offers: set<SignedOffer>, decisions: set<Decided>, reached: Round)

  datatype Sys = Sys(nodes: map<nat, Node>, disk: map<nat, Saved>, past: History)

  datatype Label =
    | Acts(p: nat, call: Call, out: seq<Action>, saved: Option<Saved>)
    | Restarts(p: nat)

  function VotesIn(p: nat, out: seq<Action>): set<SignedVote> {
    set a | a in out && a.Vote? :: SignedVote(p, a.kind, a.round, a.ballot)
  }

  function DecisionsIn(p: nat, out: seq<Action>): set<Decided> {
    set a | a in out && a.Decide? :: Decided(p, a.round, a.value)
  }

  /** The host broadcasts a proposal with the value the node asked for, or one of its own. */
  predicate Fulfils(p: nat, o: SignedOffer, a: Action) {
    a.Propose? && o.from == p && o.round == a.round && o.pol == a.polRound &&
    (a.offer.Some? ==> o.value == a.offer.value)
  }

  /** Signatures are sound: what claims to come from a correct node was sent by it. */
  predicate Authentic(w: World, h: History, call: Call) {
    match call
    case OnVote(_, kind, round, from, ballot) =>
      from in w.nodes && from < w.n ==> SignedVote(from, kind, round, ballot) in h.votes
    case OnProposal(_, round, from, value, pol, _) =>
      from in w.nodes && from < w.n ==> SignedOffer(from, round, value, pol) in h.offers
    case _ => true
  }

  function Rebirth(w: World, disk: map<nat, Saved>, p: nat): Node {
    if p in disk then Restored(Cfg(w, p), NEW, disk[p]) else NEW
  }

  ghost predicate Init(w: World, s: Sys) {
    && s.nodes.Keys == w.nodes && (forall p :: p in w.nodes ==> s.nodes[p] == NEW)
    && s.disk == map[] && s.past == History({}, {}, {}, 0)
  }

  ghost predicate Next(w: World, s: Sys, l: Label, t: Sys) {
    l.p in w.nodes && l.p in s.nodes && l.p in t.nodes &&
    match l
    case Acts(p, call, out, saved) =>
      && Authentic(w, s.past, call)
      && Returns(Cfg(w, p), s.nodes[p], call, t.nodes[p], out)
      && t.nodes == s.nodes[p := t.nodes[p]]
      && t.past == Grown(s.past, p, t.nodes[p], out).(offers := t.past.offers)
      && s.past.offers <= t.past.offers
      && (forall o :: o in t.past.offers && o !in s.past.offers ==> exists a :: a in out && Fulfils(p, o, a))
      && (saved.Some? ==> IsSaved(Cfg(w, p), t.nodes[p], saved.value) && t.disk == s.disk[p := saved.value])
      && (saved.None? ==> VotesIn(p, out) == {} && t.disk == s.disk)
    case Restarts(p) =>
      t == s.(nodes := s.nodes[p := Rebirth(w, s.disk, p)])
  }

  function Grown(h: History, p: nat, t: Node, out: seq<Action>): History {
    h.(votes := h.votes + VotesIn(p, out), decisions := h.decisions + DecisionsIn(p, out),
       reached := Max(h.reached, t.round))
  }

  /** A run: it starts fresh, and each label leads from one state to the next. */
  ghost predicate Run(w: World, states: seq<Sys>, labels: seq<Label>) {
    && |states| == |labels| + 1
    && if labels == [] then WorldOk(w) && Init(w, states[0])
       else
         var k := |labels| - 1;
         Run(w, states[..k + 1], labels[..k]) && Next(w, states[k], labels[k], states[k + 1])
  }

  function Last(states: seq<Sys>): Sys
    requires states != []
  {
    states[|states| - 1]
  }

  // ----- what the votes of correct nodes say

  function Honest(h: History, kind: VoteKind, round: Round, ballot: Ballot): set<nat> {
    set x | x in h.votes && x.kind == kind && x.round == round && x.ballot == ballot :: x.from
  }

  /** Counting every faulty node on its side, this ballot could have a quorum. */
  predicate Possible(w: World, h: History, kind: VoteKind, round: Round, ballot: Ballot) {
    |Honest(h, kind, round, ballot)| + |w.faulty| >= Quorum(w.n)
  }

  ghost predicate VotesFromMembers(w: World, h: History) {
    forall x :: x in h.votes ==> x.from in w.nodes && x.from < w.n && x.round <= h.reached
  }

  ghost predicate OneVoteEach(h: History) {
    forall x, y :: x in h.votes && y in h.votes && x.from == y.from && x.kind == y.kind && x.round == y.round
                   ==> x.ballot == y.ballot
  }

  /** A precommit for a block is only sent on a polka for it. */
  ghost predicate PrecommitsBacked(w: World, h: History) {
    forall x :: x in h.votes && x.kind.Precommit? && x.ballot.Some? ==>
      Possible(w, h, VoteKind.Prevote, x.round, x.ballot)
  }

  ghost predicate Excused(w: World, h: History, ballot: Ballot, lo: Round, hi: Round) {
    exists r: Round :: lo <= r < hi && Possible(w, h, VoteKind.Prevote, r, ballot)
  }

  predicate Deserts(x: SignedVote, y: SignedVote) {
    && x.from == y.from && x.kind.Precommit? && y.kind.Prevote?
    && x.ballot.Some? && y.ballot.Some? && x.ballot != y.ballot && x.round < y.round
  }

  /** A node that precommitted one block and later prevoted another had seen a polka for the
      other one in between. */
  ghost predicate LocksKept(w: World, h: History) {
    forall x, y :: x in h.votes && y in h.votes && Deserts(x, y) ==> Excused(w, h, y.ballot, x.round, y.round)
  }

  ghost predicate OffersOk(w: World, h: History) {
    forall o :: o in h.offers ==>
      && o.from in w.nodes && o.round <= h.reached
      && WellFormedProposal(Cfg(w, o.from), o.round, o.from, o.pol)
      && (o.pol.Some? && FewFaults(w) ==> Possible(w, h, VoteKind.Prevote, o.pol.value, Some(o.value)))
  }

  ghost predicate DecisionsBacked(w: World, h: History) {
    forall d :: d in h.decisions ==> Possible(w, h, VoteKind.Precommit, d.round, Some(d.value))
  }

  ghost predicate HistoryOk(w: World, h: History) {
    && VotesFromMembers(w, h) && OneVoteEach(h) && OffersOk(w, h) && DecisionsBacked(w, h)
    && (FewFaults(w) ==> PrecommitsBacked(w, h) && LocksKept(w, h))
  }

  // ----- what holds of one correct node

  ghost predicate SentIsRecorded(h: History, p: nat, sent: Sent) {
    && (forall x :: x in h.votes && x.from == p ==> (x.round, x.kind) in sent && sent[(x.round, x.kind)] == x.ballot)
    && (forall k :: k in sent ==> SignedVote(p, k.1, k.0, sent[k]) in h.votes)
  }

  ghost predicate LockCovers(sent: Sent, locked: Option<RoundValue>) {
    forall k :: k in sent && k.1.Precommit? && sent[k].Some? ==>
      && locked.Some? && locked.value.round >= k.0
      && (locked.value.round == k.0 ==> sent[k] == Some(locked.value.value))
  }

  predicate Backed(w: World, h: History, at: Option<RoundValue>) {
    at.Some? ==> Possible(w, h, VoteKind.Prevote, at.value.round, Some(at.value.value))
  }

  ghost predicate HonestBook(w: World, h: History, kind: VoteKind, book: Book) {
    forall r: Round, x: nat, b: Ballot :: b in Ballots(book, r, x) ==>
      x < w.n && (x in w.nodes ==> SignedVote(x, kind, r, b) in h.votes)
  }

  ghost predicate HonestRounds(w: World, h: History, highest: map<nat, Round>) {
    forall x :: x in highest ==> x < w.n && (x in w.nodes ==> highest[x] <= h.reached)
  }

  /** Proposals kept are of acceptable form, and really come from the proposer if it is correct. */
  ghost predicate HonestOffers(w: World, h: History, proposals: map<Round, Offer>) {
    forall r :: r in proposals ==>
      var Offer(value, pol) := proposals[r];
      var from := Proposer(Cfg(w, 0), r);
      && (pol.Some? ==> pol.value < r)
      && (from in w.nodes && from < w.n ==> SignedOffer(from, r, value, pol) in h.offers)
  }

  ghost predicate NodeOk(w: World, h: History, p: nat, s: Node) {
    && Inv(Cfg(w, p), s)
    && SentIsRecorded(h, p, s.sent)
    && HonestBook(w, h, VoteKind.Prevote, s.prevotes) && HonestBook(w, h, VoteKind.Precommit, s.precommits)
    && HonestRounds(w, h, s.highest) && HonestOffers(w, h, s.proposals)
    && s.round <= h.reached
    && (s.decision.Some? ==> Decided(p, s.decision.value.round, s.decision.value.value) in h.decisions)
    && (FewFaults(w) ==> LockCovers(s.sent, s.locked) && Backed(w, h, s.locked) && Backed(w, h, s.valid))
  }

  ghost predicate Sound(w: World, h: History, p: nat, s: Node) {
    && NodeOk(w, h, p, s) && ClockOk(Cfg(w, p), s, []) && NoLostTimer(Cfg(w, p), s)
    && (s.started ==> Rested(Cfg(w, p), s))
  }

  ghost predicate SysOk(w: World, s: Sys) {
    && WorldOk(w) && HistoryOk(w, s.past) && s.nodes.Keys == w.nodes
    && forall p :: p in w.nodes ==>
         Sound(w, s.past, p, s.nodes[p]) && Sound(w, s.past, p, Rebirth(w, s.disk, p))
  }

  // ----- counting

  lemma PossibleGrows(w: World, h: History, h': History, kind: VoteKind, round: Round, ballot: Ballot)
    requires h.votes <= h'.votes && Possible(w, h, kind, round, ballot)
    ensures Possible(w, h', kind, round, ballot)
  {
    SubsetSize(Honest(h, kind, round, ballot), Honest(h', kind, round, ballot));
  }

  /** A quorum in a correct node's book is possible. */
  lemma QuorumIsPossible(w: World, h: History, p: nat, kind: VoteKind, book: Book, round: Round, ballot: Ballot)
    requires WorldOk(w) && HonestBook(w, h, kind, book)
    requires HasQuorum(Cfg(w, p), book, round, ballot)
    ensures Possible(w, h, kind, round, ballot)
  {
    var voters, honest := Voters(book, round, ballot), Honest(h, kind, round, ballot);
    forall x | x in voters ensures x in honest + w.faulty {
      assert ballot in Ballots(book, round, x);
      if x in w.nodes {
        assert SignedVote(x, kind, round, ballot) in h.votes;
      }
    }
    SubsetSize(voters, honest + w.faulty);
    assert |honest + w.faulty| <= |honest| + |w.faulty|;
  }

  /** Two possible quorums share a correct node. */
  lemma PossibleMeet(w: World, h: History, k1: VoteKind, r1: Round, b1: Ballot, k2: VoteKind, r2: Round, b2: Ballot)
    returns (p: nat)
    requires WorldOk(w) && FewFaults(w) && VotesFromMembers(w, h)
    requires Possible(w, h, k1, r1, b1) && Possible(w, h, k2, r2, b2)
    ensures SignedVote(p, k1, r1, b1) in h.votes && SignedVote(p, k2, r2, b2) in h.votes
  {
    var correct := Below(w.n) - w.faulty;
    assert |correct| == w.n - |w.faulty|;
    var n, f, q := w.n, |w.faulty|, Quorum(w.n);
    assert 3 * q >= 2 * n + 1;
    p := Overlap(Honest(h, k1, r1, b1), Honest(h, k2, r2, b2), correct);
  }

  lemma PossibleUnique(w: World, h: History, kind: VoteKind, round: Round, a: Ballot, b: Ballot)
    requires WorldOk(w) && FewFaults(w) && VotesFromMembers(w, h) && OneVoteEach(h)
    requires Possible(w, h, kind, round, a) && Possible(w, h, kind, round, b)
    ensures a == b
  {
    var p := PossibleMeet(w, h, kind, round, a, kind, round, b);
  }

  lemma PossibleHasVoter(w: World, h: History, kind: VoteKind, round: Round, ballot: Ballot) returns (x: SignedVote)
    requires WorldOk(w) && FewFaults(w) && VotesFromMembers(w, h) && Possible(w, h, kind, round, ballot)
    ensures x in h.votes && x.kind == kind && x.round == round && x.ballot == ballot
  {
    var p := PossibleMeet(w, h, kind, round, ballot, kind, round, ballot);
    x := SignedVote(p, kind, round, ballot);
  }

  // ----- safety of the history

  /** Once a quorum for `v` could have precommitted in round r, no other block can gather a
      prevote quorum in round r or later. */
  lemma {:induction false} LockInduction(w: World, h: History, r: Round, v: ValueId, later: Round, u: ValueId)
    requires WorldOk(w) && FewFaults(w) && HistoryOk(w, h)
    requires Possible(w, h, VoteKind.Precommit, r, Some(v)) && r <= later
    requires Possible(w, h, VoteKind.Prevote, later, Some(u))
    ensures u == v
    decreases later
  {
    if later == r {
      var x := PossibleHasVoter(w, h, VoteKind.Precommit, r, Some(v));
      PossibleUnique(w, h, VoteKind.Prevote, r, Some(u), Some(v));
    } else if u != v {
      var p := PossibleMeet(w, h, VoteKind.Precommit, r, Some(v), VoteKind.Prevote, later, Some(u));
      assert Deserts(SignedVote(p, VoteKind.Precommit, r, Some(v)), SignedVote(p, VoteKind.Prevote, later, Some(u)));
      var mid: Round :| r <= mid < later && Possible(w, h, VoteKind.Prevote, mid, Some(u));
      LockInduction(w, h, r, v, mid, u);
    }
  }

  lemma DecisionsAgree(w: World, h: History, d: Decided, e: Decided)
    requires WorldOk(w) && FewFaults(w) && HistoryOk(w, h)
    requires d in h.decisions && e in h.decisions
    ensures d.value == e.value
  {
    var x := PossibleHasVoter(w, h, VoteKind.Precommit, d.round, Some(d.value));
    var y := PossibleHasVoter(w, h, VoteKind.Precommit, e.round, Some(e.value));
    if d.round <= e.round {
      LockInduction(w, h, d.round, d.value, e.round, e.value);
    } else {
      LockInduction(w, h, e.round, e.value, d.round, d.value);
    }
  }
}

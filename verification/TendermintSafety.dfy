/**
 Every call of a correct node keeps the committee safe, so every run is safe.
 */
module TendermintSafety {
  import opened Common
  import opened TendermintState
  import opened TendermintInvariants
  import opened TendermintNetwork

  predicate Extends(h: History, h': History) {
    h.votes <= h'.votes && h.offers <= h'.offers && h.decisions <= h'.decisions && h.reached <= h'.reached
  }

  lemma BackedGrows(w: World, h: History, h': History, at: Option<RoundValue>)
    requires Extends(h, h') && Backed(w, h, at)
    ensures Backed(w, h', at)
  {
    if at.Some? {
      PossibleGrows(w, h, h', VoteKind.Prevote, at.value.round, Some(at.value.value));
    }
  }

  /** What one node knows stays right as others go on. */
  lemma BookGrows(w: World, h: History, h': History, kind: VoteKind, book: Book)
    requires HonestBook(w, h, kind, book) && h.votes <= h'.votes
    ensures HonestBook(w, h', kind, book)
  {
  }

  lemma BookGainsVote(w: World, h: History, kind: VoteKind, book: Book, round: Round, from: nat, ballot: Ballot)
    requires HonestBook(w, h, kind, book)
    requires from < w.n && (from in w.nodes ==> SignedVote(from, kind, round, ballot) in h.votes)
    ensures HonestBook(w, h, kind, Record(book, round, from, ballot))
  {
    RecordAddsOne(book, round, from, ballot);
  }

  lemma NodeOkGrows(w: World, h: History, h': History, q: nat, s: Node)
    requires NodeOk(w, h, q, s) && Extends(h, h')
    requires forall x :: x in h'.votes && x.from == q ==> x in h.votes
    ensures NodeOk(w, h', q, s)
  {
    BookGrows(w, h, h', VoteKind.Prevote, s.prevotes);
    BookGrows(w, h, h', VoteKind.Precommit, s.precommits);
    if FewFaults(w) {
      BackedGrows(w, h, h', s.locked);
      BackedGrows(w, h, h', s.valid);
    }
  }

  lemma HistoryGrowsQuietly(w: World, h: History, h': History)
    requires HistoryOk(w, h) && Extends(h, h') && h'.votes == h.votes && h'.offers == h.offers
    requires DecisionsBacked(w, h')
    ensures HistoryOk(w, h')
  {
    forall kind, round, ballot | Possible(w, h, kind, round, ballot)
      ensures Possible(w, h', kind, round, ballot)
    {
      PossibleGrows(w, h, h', kind, round, ballot);
    }
    if FewFaults(w) {
      forall x, y | x in h'.votes && y in h'.votes && Deserts(x, y)
        ensures Excused(w, h', y.ballot, x.round, y.round)
      {
        assert Excused(w, h, y.ballot, x.round, y.round);
      }
    }
  }

  // ----- a new vote

  /** What a vote must satisfy when a correct node adds it. */
  ghost predicate Justified(w: World, h: History, s: Node, kind: VoteKind, ballot: Ballot) {
    ballot.Some? && FewFaults(w) ==>
      match kind
      case Prevote =>
        || s.locked.None? || s.locked.value.value == ballot.value
        || Excused(w, h, ballot, s.locked.value.round, s.round)
      case Precommit =>
        s.locked == Some(RoundValue(s.round, ballot.value)) && Possible(w, h, VoteKind.Prevote, s.round, ballot)
  }

  lemma NewVoteKeepsHistory(w: World, h: History, h': History, p: nat, s: Node, kind: VoteKind, ballot: Ballot)
    requires WorldOk(w) && HistoryOk(w, h) && NodeOk(w, h, p, s) && p in w.nodes && p < w.n
    requires (s.round, kind) !in s.sent && Justified(w, h, s, kind, ballot)
    requires Extends(h, h') && h' == h.(votes := h.votes + {SignedVote(p, kind, s.round, ballot)})
    ensures HistoryOk(w, h')
  {
    OffersStayOk(w, h, h');
    DecisionsStayBacked(w, h, h');
    if FewFaults(w) {
      PrecommitsStayBacked(w, h, h', p, s, kind, ballot);
      NewVoteKeepsLocks(w, h, h', p, s, kind, ballot);
    }
  }

  lemma OffersStayOk(w: World, h: History, h': History)
    requires OffersOk(w, h) && h.votes <= h'.votes && h'.offers == h.offers && h'.reached == h.reached
    ensures OffersOk(w, h')
  {
    forall o | o in h'.offers && o.pol.Some? && FewFaults(w)
      ensures Possible(w, h', VoteKind.Prevote, o.pol.value, Some(o.value))
    {
      PossibleGrows(w, h, h', VoteKind.Prevote, o.pol.value, Some(o.value));
    }
  }

  lemma DecisionsStayBacked(w: World, h: History, h': History)
    requires DecisionsBacked(w, h) && h.votes <= h'.votes && h'.decisions == h.decisions
    ensures DecisionsBacked(w, h')
  {
    forall d | d in h'.decisions ensures Possible(w, h', VoteKind.Precommit, d.round, Some(d.value)) {
      PossibleGrows(w, h, h', VoteKind.Precommit, d.round, Some(d.value));
    }
  }

  lemma PrecommitsStayBacked(w: World, h: History, h': History, p: nat, s: Node, kind: VoteKind, ballot: Ballot)
    requires FewFaults(w) && PrecommitsBacked(w, h) && Justified(w, h, s, kind, ballot)
    requires h'.votes == h.votes + {SignedVote(p, kind, s.round, ballot)}
    ensures PrecommitsBacked(w, h')
  {
    forall x | x in h'.votes && x.kind.Precommit? && x.ballot.Some?
      ensures Possible(w, h', VoteKind.Prevote, x.round, x.ballot)
    {
      PossibleGrows(w, h, h', VoteKind.Prevote, x.round, x.ballot);
    }
  }

  lemma NewVoteKeepsLocks(w: World, h: History, h': History, p: nat, s: Node, kind: VoteKind, ballot: Ballot)
    requires FewFaults(w) && HistoryOk(w, h) && NodeOk(w, h, p, s)
    requires (s.round, kind) !in s.sent && Justified(w, h, s, kind, ballot)
    requires h'.votes == h.votes + {SignedVote(p, kind, s.round, ballot)}
    ensures LocksKept(w, h')
  {
    var x0 := SignedVote(p, kind, s.round, ballot);
    forall x, y | x in h'.votes && y in h'.votes && Deserts(x, y)
      ensures Excused(w, h', y.ballot, x.round, y.round)
    {
      if y == x0 {
        NewPrevoteIsExcused(w, h, p, s, ballot, x);
      } else {
        assert x != x0;
      }
      ExcusedGrows(w, h, h', y.ballot, x.round, y.round);
    }
  }

  lemma ExcusedGrows(w: World, h: History, h': History, ballot: Ballot, lo: Round, hi: Round)
    requires Excused(w, h, ballot, lo, hi) && h.votes <= h'.votes
    ensures Excused(w, h', ballot, lo, hi)
  {
    var r: Round :| lo <= r < hi && Possible(w, h, VoteKind.Prevote, r, ballot);
    PossibleGrows(w, h, h', VoteKind.Prevote, r, ballot);
  }

  lemma NewPrevoteIsExcused(w: World, h: History, p: nat, s: Node, ballot: Ballot, x: SignedVote)
    requires FewFaults(w) && NodeOk(w, h, p, s)
    requires (s.round, VoteKind.Prevote) !in s.sent && Justified(w, h, s, VoteKind.Prevote, ballot)
    requires x in h.votes && Deserts(x, SignedVote(p, VoteKind.Prevote, s.round, ballot))
    ensures Excused(w, h, ballot, x.round, s.round)
  {
    assert (x.round, x.kind) in s.sent && s.sent[(x.round, x.kind)] == x.ballot;
    if s.locked.value.value == ballot.value {
      assert x.round <= s.locked.value.round < s.round;
    } else {
      var r: Round :| s.locked.value.round <= r < s.round && Possible(w, h, VoteKind.Prevote, r, ballot);
    }
  }

  predicate OfferActionOk(w: World, h: History, p: nat, a: Action) {
    a.Propose? ==>
      && p in w.nodes && WellFormedProposal(Cfg(w, p), a.round, p, a.polRound) && a.round <= h.reached
      && (a.polRound.Some? ==>
            && a.offer.Some?
            && (FewFaults(w) ==> Possible(w, h, VoteKind.Prevote, a.polRound.value, a.offer)))
  }

  /** After a node moved from s to t emitting acts, all is still well. */
  ghost predicate Kept(w: World, h: History, p: nat, s: Node, t: Node, acts: seq<Action>) {
    var h' := Grown(h, p, t, acts);
    && s.round <= t.round && HistoryOk(w, h') && NodeOk(w, h', p, t)
    && forall a :: a in acts ==> OfferActionOk(w, h', p, a)
  }

  lemma GrownByVote(h: History, p: nat, t: Node, a: Action)
    requires a.Vote? && t.round <= h.reached
    ensures Grown(h, p, t, [a]) == h.(votes := h.votes + {SignedVote(p, a.kind, a.round, a.ballot)})
  {
    assert VotesIn(p, [a]) == {SignedVote(p, a.kind, a.round, a.ballot)} && DecisionsIn(p, [a]) == {};
  }

  lemma GrownByDecision(h: History, p: nat, t: Node, a: Action)
    requires a.Decide? && t.round <= h.reached
    ensures Grown(h, p, t, [a]) == h.(decisions := h.decisions + {Decided(p, a.round, a.value)})
  {
    assert VotesIn(p, [a]) == {} && DecisionsIn(p, [a]) == {Decided(p, a.round, a.value)};
  }

  lemma GrownQuietly(h: History, p: nat, t: Node, acts: seq<Action>)
    requires forall a :: a in acts ==> a.Propose?
    ensures Grown(h, p, t, acts) == h.(reached := Max(h.reached, t.round))
  {
    assert VotesIn(p, acts) == {} && DecisionsIn(p, acts) == {};
  }

  lemma CastFields(c: Config, s: Node, kind: VoteKind, ballot: Ballot, step: Step)
    requires c.me.Some? && (s.round, kind) !in s.sent
    ensures var x := CastAndStep(c, s, kind, ballot, step);
            && x.acts == [Action.Vote(kind, s.round, ballot)]
            && x.node.sent == s.sent[(s.round, kind) := ballot]
            && x.node.prevotes ==
               (if kind.Prevote? then Record(s.prevotes, s.round, c.me.value, ballot) else s.prevotes)
            && x.node.precommits ==
               (if kind.Precommit? then Record(s.precommits, s.round, c.me.value, ballot) else s.precommits)
  {
  }

  lemma CastStep(w: World, h: History, p: nat, s: Node, kind: VoteKind, ballot: Ballot, step: Step)
    requires WorldOk(w) && HistoryOk(w, h) && NodeOk(w, h, p, s) && p in w.nodes && p < w.n && s.started
    requires kind.Prevote? ==> s.step.Propose? && step.Prevote?
    requires kind.Precommit? ==> s.step.Prevote? && step.Precommit?
    requires (s.round, kind) !in s.sent ==> Justified(w, h, s, kind, ballot)
    ensures var x := CastAndStep(Cfg(w, p), s, kind, ballot, step); Kept(w, h, p, s, x.node, x.acts)
  {
    CastKeeps(Cfg(w, p), s, kind, ballot, step);
    if (s.round, kind) in s.sent {
      RepeatedCastStep(w, h, p, s, kind, ballot, step);
    } else {
      FirstCastStep(w, h, p, s, kind, ballot, step);
    }
  }

  lemma RepeatedCastStep(w: World, h: History, p: nat, s: Node, kind: VoteKind, ballot: Ballot, step: Step)
    requires HistoryOk(w, h) && NodeOk(w, h, p, s) && (s.round, kind) in s.sent
    requires Inv(Cfg(w, p), CastAndStep(Cfg(w, p), s, kind, ballot, step).node)
    ensures var x := CastAndStep(Cfg(w, p), s, kind, ballot, step); Kept(w, h, p, s, x.node, x.acts)
  {
    var x := CastAndStep(Cfg(w, p), s, kind, ballot, step);
    assert x.node == s.(step := step) && x.acts == [];
    GrownQuietly(h, p, x.node, []);
    assert Grown(h, p, x.node, []) == h;
    NodeOkCongruent(w, h, p, s, x.node);
  }

  lemma FirstCastStep(w: World, h: History, p: nat, s: Node, kind: VoteKind, ballot: Ballot, step: Step)
    requires WorldOk(w) && HistoryOk(w, h) && NodeOk(w, h, p, s) && p in w.nodes && p < w.n
    requires (s.round, kind) !in s.sent && Justified(w, h, s, kind, ballot)
    requires Inv(Cfg(w, p), CastAndStep(Cfg(w, p), s, kind, ballot, step).node)
    ensures var x := CastAndStep(Cfg(w, p), s, kind, ballot, step); Kept(w, h, p, s, x.node, x.acts)
  {
    var x := CastAndStep(Cfg(w, p), s, kind, ballot, step);
    CastFields(Cfg(w, p), s, kind, ballot, step);
    VoteIsKept(w, h, p, s, x.node, kind, ballot);
    KeptByVote(w, h, p, s, x.node, Action.Vote(kind, s.round, ballot));
  }

  lemma KeptByVote(w: World, h: History, p: nat, s: Node, t: Node, a: Action)
    requires a.Vote? && t.round == s.round <= h.reached
    requires var h' := h.(votes := h.votes + {SignedVote(p, a.kind, a.round, a.ballot)});
             HistoryOk(w, h') && NodeOk(w, h', p, t)
    ensures Kept(w, h, p, s, t, [a])
  {
    GrownByVote(h, p, t, a);
  }

  lemma VoteIsKept(w: World, h: History, p: nat, s: Node, t: Node, kind: VoteKind, ballot: Ballot)
    requires WorldOk(w) && HistoryOk(w, h) && NodeOk(w, h, p, s) && p in w.nodes && p < w.n
    requires (s.round, kind) !in s.sent && Justified(w, h, s, kind, ballot)
    requires Inv(Cfg(w, p), t) && SamePlace(s, t) && t.locked == s.locked
    requires t.sent == s.sent[(s.round, kind) := ballot]
    requires t.prevotes == if kind.Prevote? then Record(s.prevotes, s.round, p, ballot) else s.prevotes
    requires t.precommits == if kind.Precommit? then Record(s.precommits, s.round, p, ballot) else s.precommits
    ensures var h' := h.(votes := h.votes + {SignedVote(p, kind, s.round, ballot)});
            HistoryOk(w, h') && NodeOk(w, h', p, t)
  {
    var h' := h.(votes := h.votes + {SignedVote(p, kind, s.round, ballot)});
    NewVoteKeepsHistory(w, h, h', p, s, kind, ballot);
    if FewFaults(w) {
      LockCoversNew(w, h, p, s, kind, ballot);
    }
    NewVoteKeepsNode(w, h, h', p, s, t, kind, ballot);
  }

  lemma LockCoversNew(w: World, h: History, p: nat, s: Node, kind: VoteKind, ballot: Ballot)
    requires FewFaults(w) && NodeOk(w, h, p, s) && Justified(w, h, s, kind, ballot)
    ensures LockCovers(s.sent[(s.round, kind) := ballot], s.locked)
  {
  }

  /** Same votes, locks, books and rounds. */
  lemma NodeOkCongruent(w: World, h: History, p: nat, s: Node, t: Node)
    requires NodeOk(w, h, p, s) && Inv(Cfg(w, p), t)
    requires t.sent == s.sent && t.locked == s.locked && t.valid == s.valid && t.prevotes == s.prevotes
    requires t.precommits == s.precommits && t.highest == s.highest && t.round <= h.reached && t.decision == s.decision
    requires t.proposals == s.proposals
    ensures NodeOk(w, h, p, t)
  {
  }

  lemma NewVoteKeepsNode(w: World, h: History, h': History, p: nat, s: Node, t: Node, kind: VoteKind, ballot: Ballot)
    requires NodeOk(w, h, p, s) && p < w.n && (s.round, kind) !in s.sent
    requires FewFaults(w) ==> LockCovers(s.sent[(s.round, kind) := ballot], s.locked)
    requires h' == h.(votes := h.votes + {SignedVote(p, kind, s.round, ballot)})
    requires Inv(Cfg(w, p), t) && SamePlace(s, t) && t.locked == s.locked
    requires t.sent == s.sent[(s.round, kind) := ballot]
    requires t.prevotes == if kind.Prevote? then Record(s.prevotes, s.round, p, ballot) else s.prevotes
    requires t.precommits == if kind.Precommit? then Record(s.precommits, s.round, p, ballot) else s.precommits
    ensures NodeOk(w, h', p, t)
  {
    BooksGainVote(w, h, h', p, s, kind, ballot);
    if FewFaults(w) {
      BackedGrows(w, h, h', s.locked);
      BackedGrows(w, h, h', s.valid);
    }
  }

  lemma BooksGainVote(w: World, h: History, h': History, p: nat, s: Node, kind: VoteKind, ballot: Ballot)
    requires HonestBook(w, h, VoteKind.Prevote, s.prevotes) && HonestBook(w, h, VoteKind.Precommit, s.precommits)
    requires p < w.n && h'.votes == h.votes + {SignedVote(p, kind, s.round, ballot)}
    ensures HonestBook(w, h', VoteKind.Prevote, s.prevotes) && HonestBook(w, h', VoteKind.Precommit, s.precommits)
    ensures HonestBook(w, h', kind, Record(BookOf(s, kind), s.round, p, ballot))
  {
    BookGrows(w, h, h', VoteKind.Prevote, s.prevotes);
    BookGrows(w, h, h', VoteKind.Precommit, s.precommits);
    BookGainsVote(w, h', kind, BookOf(s, kind), s.round, p, ballot);
  }

  lemma EnterStep(w: World, h: History, p: nat, s: Node, now: U64, r: Round)
    requires WorldOk(w) && HistoryOk(w, h) && NodeOk(w, h, p, s) && p in w.nodes && p < w.n
    requires r > s.round || (r == s.round && (r == MAX_ROUND || s.step.Propose?))
    ensures var x := StartRound(Cfg(w, p), s, now, r); Kept(w, h, p, s, x.node, x.acts)
  {
    var c := Cfg(w, p);
    var x := StartRound(c, s, now, r);
    StartRoundKeeps(c, s, now, r);
    GrownQuietly(h, p, x.node, x.acts);
    var h' := Grown(h, p, x.node, x.acts);
    HistoryGrowsQuietly(w, h, h');
    NodeOkGrows(w, h, h', p, s);
    NodeOkCongruent(w, h', p, s, x.node);
  }

  // ----- one pass of the loop

  lemma PolkaStep(w: World, h: History, p: nat, s: Node, v: ValueId)
    requires WorldOk(w) && HistoryOk(w, h) && NodeOk(w, h, p, s) && p in w.nodes && p < w.n && s.started
    requires !s.step.Propose? && HasQuorum(Cfg(w, p), s.prevotes, s.round, Some(v))
    ensures var x := HandlePolka(Cfg(w, p), s, v); Kept(w, h, p, s, x.node, x.acts)
  {
    QuorumIsPossible(w, h, p, VoteKind.Prevote, s.prevotes, s.round, Some(v));
    PolkaKeeps(Cfg(w, p), s, v);
    if s.step.Prevote? {
      LockingPolka(w, h, p, s, v);
    } else {
      LatePolka(w, h, p, s, v);
    }
  }

  lemma LockingPolka(w: World, h: History, p: nat, s: Node, v: ValueId)
    requires WorldOk(w) && HistoryOk(w, h) && NodeOk(w, h, p, s) && p in w.nodes && p < w.n
    requires s.started && s.step.Prevote?
    requires Possible(w, h, VoteKind.Prevote, s.round, Some(v)) && Inv(Cfg(w, p), HandlePolka(Cfg(w, p), s, v).node)
    ensures var x := HandlePolka(Cfg(w, p), s, v); Kept(w, h, p, s, x.node, x.acts)
  {
    var c := Cfg(w, p);
    var x := HandlePolka(c, s, v);
    var at := Some(RoundValue(s.round, v));
    var onPolka := s.(locked := at, valid := at);
    LockedOk(w, h, p, s, v);
    CastStep(w, h, p, onPolka, VoteKind.Precommit, Some(v), Step.Precommit);
    var y := CastAndStep(c, onPolka, VoteKind.Precommit, Some(v), Step.Precommit);
    PolkaIsCast(c, s, v);
    PolkaMarked(w, h, p, onPolka, y, x);
  }

  lemma LockedOk(w: World, h: History, p: nat, s: Node, v: ValueId)
    requires WorldOk(w) && HistoryOk(w, h) && NodeOk(w, h, p, s) && p < w.n && s.step.Prevote?
    requires Possible(w, h, VoteKind.Prevote, s.round, Some(v))
    ensures var at := Some(RoundValue(s.round, v)); NodeOk(w, h, p, s.(locked := at, valid := at))
  {
    var at := Some(RoundValue(s.round, v));
    assert Inv(Cfg(w, p), s.(locked := at, valid := at));
    if FewFaults(w) {
      LockOnPolka(w, h, p, s, v);
    }
  }

  /** Noting that the polka has been handled changes nothing else. */
  lemma PolkaMarked(w: World, h: History, p: nat, s: Node, y: Effect, x: Effect)
    requires Kept(w, h, p, s, y.node, y.acts) && x.acts == y.acts && Inv(Cfg(w, p), x.node)
    requires x.node == y.node.(polkaDone := x.node.polkaDone)
    ensures Kept(w, h, p, s, x.node, x.acts)
  {
    assert Grown(h, p, x.node, x.acts) == Grown(h, p, y.node, y.acts);
    NodeOkCongruent(w, Grown(h, p, y.node, y.acts), p, y.node, x.node);
  }

  lemma LatePolka(w: World, h: History, p: nat, s: Node, v: ValueId)
    requires HistoryOk(w, h) && NodeOk(w, h, p, s) && !s.step.Prevote?
    requires Inv(Cfg(w, p), HandlePolka(Cfg(w, p), s, v).node)
    requires Possible(w, h, VoteKind.Prevote, s.round, Some(v))
    ensures var x := HandlePolka(Cfg(w, p), s, v); Kept(w, h, p, s, x.node, x.acts)
  {
    var x := HandlePolka(Cfg(w, p), s, v);
    GrownQuietly(h, p, x.node, []);
    assert Grown(h, p, x.node, []) == h;
  }

  lemma PolkaIsCast(c: Config, s: Node, v: ValueId)
    requires s.step.Prevote?
    ensures var at := Some(RoundValue(s.round, v));
            var y := CastAndStep(c, s.(locked := at, valid := at), VoteKind.Precommit, Some(v), Step.Precommit);
            HandlePolka(c, s, v) == Effect(y.node.(polkaDone := s.polkaDone + {s.round}), y.acts)
  {
  }

  lemma LockOnPolka(w: World, h: History, p: nat, s: Node, v: ValueId)
    requires WorldOk(w) && FewFaults(w) && HistoryOk(w, h) && NodeOk(w, h, p, s)
    requires Possible(w, h, VoteKind.Prevote, s.round, Some(v))
    ensures LockCovers(s.sent, Some(RoundValue(s.round, v)))
  {
    forall k | k in s.sent && k.1.Precommit? && s.sent[k].Some? && k.0 == s.round
      ensures s.sent[k] == Some(v)
    {
      assert SignedVote(p, k.1, k.0, s.sent[k]) in h.votes;
      PossibleUnique(w, h, VoteKind.Prevote, s.round, s.sent[k], Some(v));
    }
  }

  lemma ArmStep(w: World, h: History, p: nat, s: Node, timer: Timer, now: U64)
    requires NodeOk(w, h, p, s)
    ensures NodeOk(w, h, p, Arm(Cfg(w, p), s, timer, s.round, now))
  {
    ArmKeeps(Cfg(w, p), s, timer, s.round, now);
    NodeOkCongruent(w, h, p, s, Arm(Cfg(w, p), s, timer, s.round, now));
  }

  lemma WeighingStep(w: World, h: History, p: nat, s: Node, now: U64, polka: Option<ValueId>)
    requires WorldOk(w) && HistoryOk(w, h) && NodeOk(w, h, p, s) && p in w.nodes && p < w.n && s.started
    requires FoundPolka(Cfg(w, p), s, polka)
    ensures var x := Weighed(Cfg(w, p), s, now, polka); Kept(w, h, p, s, x.node, x.acts)
  {
    var c := Cfg(w, p);
    if !s.step.Propose? && s.round !in s.polkaDone && polka.Some? && Acceptable(s, polka.value) {
      PolkaStep(w, h, p, s, polka.value);
    } else if s.step.Prevote? && HasQuorum(c, s.prevotes, s.round, None) {
      CastStep(w, h, p, s, VoteKind.Precommit, None, Step.Precommit);
    } else {
      QuietWeighing(w, h, p, s, now);
    }
  }

  lemma QuietWeighing(w: World, h: History, p: nat, s: Node, now: U64)
    requires HistoryOk(w, h) && NodeOk(w, h, p, s)
    ensures var t := if |Row(s.precommits, s.round)| >= Quorum(w.n)
                     then Arm(Cfg(w, p), s, Timer.Precommit, s.round, now) else s;
            Kept(w, h, p, s, t, [])
  {
    var t := if |Row(s.precommits, s.round)| >= Quorum(w.n)
             then Arm(Cfg(w, p), s, Timer.Precommit, s.round, now) else s;
    ArmStep(w, h, p, s, Timer.Precommit, now);
    GrownQuietly(h, p, t, []);
    assert Grown(h, p, t, []) == h;
  }

  lemma VerdictStep(w: World, h: History, p: nat, s: Node)
    requires WorldOk(w) && HistoryOk(w, h) && NodeOk(w, h, p, s) && p in w.nodes && p < w.n && s.started
    requires Verdict(Cfg(w, p), s).Some?
    ensures var x := CastAndStep(Cfg(w, p), s, VoteKind.Prevote, Verdict(Cfg(w, p), s).value, Step.Prevote);
            Kept(w, h, p, s, x.node, x.acts)
  {
    var ballot := Verdict(Cfg(w, p), s).value;
    var Offer(v, pol) := s.proposals[s.round];
    if pol.Some? && ballot.Some? && s.locked.Some? && s.locked.value.value != v {
      QuorumIsPossible(w, h, p, VoteKind.Prevote, s.prevotes, pol.value, ballot);
      assert s.locked.value.round <= pol.value < s.round;
      assert Excused(w, h, ballot, s.locked.value.round, s.round);
    }
    CastStep(w, h, p, s, VoteKind.Prevote, ballot, Step.Prevote);
  }

  lemma DecideStep(w: World, h: History, p: nat, s: Node, d: RoundValue)
    requires WorldOk(w) && HistoryOk(w, h) && NodeOk(w, h, p, s)
    requires HasQuorum(Cfg(w, p), s.precommits, d.round, Some(d.value))
    ensures Kept(w, h, p, s, s.(decision := Some(d), timers := []), [Action.Decide(d.round, d.value)])
  {
    var t := s.(decision := Some(d), timers := []);
    var a := Action.Decide(d.round, d.value);
    QuorumIsPossible(w, h, p, VoteKind.Precommit, s.precommits, d.round, Some(d.value));
    var h' := h.(decisions := h.decisions + {Decided(p, d.round, d.value)});
    GrownByDecision(h, p, t, a);
    forall x | x in h'.decisions ensures Possible(w, h', VoteKind.Precommit, x.round, Some(x.value)) {
      PossibleGrows(w, h, h', VoteKind.Precommit, x.round, Some(x.value));
    }
    HistoryGrowsQuietly(w, h, h');
    NodeOkGrows(w, h, h', p, s);
    NodeOkCongruent(w, h', p, s.(decision := Some(d)), t);
  }

  lemma IterationStep(w: World, h: History, p: nat, s: Node, now: U64, pick: Pick)
    requires WorldOk(w) && HistoryOk(w, h) && NodeOk(w, h, p, s) && p in w.nodes && PickOk(Cfg(w, p), s, pick)
    ensures var x := Iteration(Cfg(w, p), s, now, pick); Kept(w, h, p, s, x.node, x.acts)
  {
    var c := Cfg(w, p);
    if s.decision.None? && pick.decision.Some? {
      DecideStep(w, h, p, s, pick.decision.value);
    } else if s.decision.Some? || c.me.None? || !s.started || c.n == 0 {
      GrownQuietly(h, p, s, []);
      assert Grown(h, p, s, []) == h;
    } else if SkipTarget(c, s).Some? {
      EnterStep(w, h, p, s, now, SkipTarget(c, s).value);
    } else if Verdict(c, s).Some? {
      VerdictStep(w, h, p, s);
    } else {
      ArmStep(w, h, p, s, Timer.Prevote, now);
      WeighingStep(w, h, p, PrevoteArmed(Cfg(w, p), s, now), now, pick.polka);
    }
  }

  lemma FiredStep(w: World, h: History, p: nat, s: Node, now: U64, timer: Timer, round: Round)
    requires WorldOk(w) && HistoryOk(w, h) && NodeOk(w, h, p, s) && p in w.nodes && p < w.n && s.started
    ensures var x := Fired(Cfg(w, p), s, now, timer, round); Kept(w, h, p, s, x.node, x.acts)
  {
    GrownQuietly(h, p, s, []);
    assert Grown(h, p, s, []) == h;
    if s.round == round {
      match timer
      case Propose => if s.step.Propose? { CastStep(w, h, p, s, VoteKind.Prevote, None, Step.Prevote); }
      case Prevote => if s.step.Prevote? { CastStep(w, h, p, s, VoteKind.Precommit, None, Step.Precommit); }
      case Precommit => EnterStep(w, h, p, s, now, NextRound(round));
    }
  }

  // ----- whole calls

  lemma OfferActionGrows(w: World, h: History, h': History, p: nat, a: Action)
    requires OfferActionOk(w, h, p, a) && Extends(h, h')
    ensures OfferActionOk(w, h', p, a)
  {
    if a.Propose? && a.polRound.Some? && FewFaults(w) {
      PossibleGrows(w, h, h', VoteKind.Prevote, a.polRound.value, a.offer);
    }
  }

  lemma GrownTwice(h: History, p: nat, m: Node, a: seq<Action>, t: Node, b: seq<Action>)
    requires m.round <= t.round
    ensures Grown(Grown(h, p, m, a), p, t, b) == Grown(h, p, t, a + b)
    ensures Extends(Grown(h, p, m, a), Grown(h, p, t, a + b))
  {
    assert VotesIn(p, a + b) == VotesIn(p, a) + VotesIn(p, b);
    assert DecisionsIn(p, a + b) == DecisionsIn(p, a) + DecisionsIn(p, b);
  }

  lemma KeptTwice(w: World, h: History, p: nat, s: Node, m: Node, a: seq<Action>, t: Node, b: seq<Action>)
    requires Kept(w, h, p, s, m, a) && Kept(w, Grown(h, p, m, a), p, m, t, b)
    ensures Kept(w, h, p, s, t, a + b)
  {
    GrownTwice(h, p, m, a, t, b);
    forall x | x in a ensures OfferActionOk(w, Grown(h, p, t, a + b), p, x) {
      OfferActionGrows(w, Grown(h, p, m, a), Grown(h, p, t, a + b), p, x);
    }
  }

  lemma KeptNothing(w: World, h: History, p: nat, s: Node)
    requires HistoryOk(w, h) && NodeOk(w, h, p, s)
    ensures Kept(w, h, p, s, s, [])
  {
    GrownQuietly(h, p, s, []);
    assert Grown(h, p, s, []) == h;
  }

  lemma {:induction false} AfterKept(w: World, h: History, p: nat, s: Node, now: U64, picks: seq<Pick>)
    requires WorldOk(w) && HistoryOk(w, h) && NodeOk(w, h, p, s) && p in w.nodes
    requires Legal(Cfg(w, p), s, now, picks)
    ensures var x := After(Cfg(w, p), s, now, picks); Kept(w, h, p, s, x.node, x.acts)
  {
    if picks == [] {
      KeptNothing(w, h, p, s);
    } else {
      var k := |picks| - 1;
      AfterKept(w, h, p, s, now, picks[..k]);
      var before := After(Cfg(w, p), s, now, picks[..k]);
      var last := Iteration(Cfg(w, p), before.node, now, picks[k]);
      IterationStep(w, Grown(h, p, before.node, before.acts), p, before.node, now, picks[k]);
      KeptTwice(w, h, p, s, before.node, before.acts, last.node, last.acts);
    }
  }

  lemma HandleOneKept(w: World, h: History, p: nat, s: Node, now: U64, due: Pending, picks: seq<Pick>)
    requires WorldOk(w) && HistoryOk(w, h) && NodeOk(w, h, p, s) && p in w.nodes && Active(Cfg(w, p), s)
    requires LegalOne(Cfg(w, p), s, now, due, picks)
    ensures var x := HandleOne(Cfg(w, p), s, now, due, picks); Kept(w, h, p, s, x.node, x.acts)
  {
    if s.decision.Some? {
      KeptNothing(w, h, p, s);
    } else {
      var c := Cfg(w, p);
      var fired := Fired(c, s, now, due.timer, due.round);
      FiredStep(w, h, p, s, now, due.timer, due.round);
      AfterKept(w, Grown(h, p, fired.node, fired.acts), p, fired.node, now, picks);
      var after := After(c, fired.node, now, picks);
      KeptTwice(w, h, p, s, fired.node, fired.acts, after.node, after.acts);
    }
  }

  lemma HandledStaysActive(
    c: Config, s: Node, now: U64, due: seq<Pending>, script: seq<seq<Pick>>, p: Pending, rest: seq<Pending>)
    requires |script| == |due| && LegalScript(c, s, now, due, script) && Good(c, s, due + ([p] + rest))
    ensures Active(c, Handled(c, s, now, due, script).node)
  {
    HandledGood(c, s, now, due, script, [p] + rest);
    assert p in [p] + rest;
  }

  lemma Regroup(due: seq<Pending>, rest: seq<Pending>)
    requires due != []
    ensures due[..|due| - 1] + ([due[|due| - 1]] + rest) == due + rest
  {
  }

  lemma {:induction false} HandledKept(
    w: World, h: History, p: nat, s: Node, now: U64, due: seq<Pending>, script: seq<seq<Pick>>, rest: seq<Pending>)
    requires WorldOk(w) && HistoryOk(w, h) && NodeOk(w, h, p, s) && p in w.nodes
    requires |script| == |due| && LegalScript(Cfg(w, p), s, now, due, script)
    requires ClockOk(Cfg(w, p), s, due + rest)
    ensures var x := Handled(Cfg(w, p), s, now, due, script); Kept(w, h, p, s, x.node, x.acts)
  {
    if due == [] {
      KeptNothing(w, h, p, s);
    } else {
      var k := |due| - 1;
      Regroup(due, rest);
      HandledKept(w, h, p, s, now, due[..k], script[..k], [due[k]] + rest);
      HandledStaysActive(Cfg(w, p), s, now, due[..k], script[..k], due[k], rest);
      HandledOneMore(w, h, p, s, now, due, script);
    }
  }

  lemma HandledOneMore(w: World, h: History, p: nat, s: Node, now: U64, due: seq<Pending>, script: seq<seq<Pick>>)
    requires WorldOk(w) && p in w.nodes && |script| == |due| && due != []
    requires LegalScript(Cfg(w, p), s, now, due, script)
    requires var x := Handled(Cfg(w, p), s, now, due[..|due| - 1], script[..|due| - 1]);
             Active(Cfg(w, p), x.node) && Kept(w, h, p, s, x.node, x.acts)
    ensures var x := Handled(Cfg(w, p), s, now, due, script); Kept(w, h, p, s, x.node, x.acts)
  {
    var k := |due| - 1;
    var before := Handled(Cfg(w, p), s, now, due[..k], script[..k]);
    var last := HandleOne(Cfg(w, p), before.node, now, due[k], script[k]);
    HandleOneKept(w, Grown(h, p, before.node, before.acts), p, before.node, now, due[k], script[k]);
    KeptTwice(w, h, p, s, before.node, before.acts, last.node, last.acts);
  }

  lemma ProgressKept(
    w: World, h: History, p: nat, s: Node, m: Node, a: seq<Action>, now: U64, t: Node, rest: seq<Action>)
    requires WorldOk(w) && p in w.nodes && Kept(w, h, p, s, m, a) && Progressed(Cfg(w, p), m, now, t, rest)
    ensures Kept(w, h, p, s, t, a + rest)
  {
    var picks :| Legal(Cfg(w, p), m, now, picks) && After(Cfg(w, p), m, now, picks) == Turn(t, rest, false);
    AfterKept(w, Grown(h, p, m, a), p, m, now, picks);
    KeptTwice(w, h, p, s, m, a, t, rest);
  }

  lemma FirstEffectStep(w: World, h: History, p: nat, s: Node, call: Call)
    requires WorldOk(w) && HistoryOk(w, h) && NodeOk(w, h, p, s) && p in w.nodes && Authentic(w, h, call)
    requires !call.Tick? && !call.Carry? && !(call.Start? && s.started)
    ensures var x := FirstEffect(Cfg(w, p), s, call); Kept(w, h, p, s, x.node, x.acts)
  {
    var c := Cfg(w, p);
    FirstEffectKeeps(c, s, call);
    match call
    case Start(now) =>
      StartStep(w, h, p, s, now);
    case OnProposal(_, round, from, value, pol, ok) =>
      OfferedStep(w, h, p, s, round, from, value, pol, ok);
    case OnValue(_, value, ok) =>
      NodeOkCongruent(w, h, p, s, Learned(s, value, ok));
      KeptNothing(w, h, p, Learned(s, value, ok));
    case OnVote(_, kind, round, from, ballot) =>
      HeardStep(w, h, p, s, kind, round, from, ballot);
      KeptNothing(w, h, p, Heard(c, s, kind, round, from, ballot));
  }

  lemma OfferedStep(
    w: World, h: History, p: nat, s: Node, round: Round, from: nat, value: ValueId, pol: Option<Round>, ok: bool)
    requires HistoryOk(w, h) && NodeOk(w, h, p, s)
    requires from in w.nodes && from < w.n ==> SignedOffer(from, round, value, pol) in h.offers
    requires Inv(Cfg(w, p), Offered(Cfg(w, p), s, round, from, value, pol, ok))
    ensures var t := Offered(Cfg(w, p), s, round, from, value, pol, ok); Kept(w, h, p, s, t, [])
  {
    var t := Offered(Cfg(w, p), s, round, from, value, pol, ok);
    OfferedFields(w, h, p, s, round, from, value, pol, ok);
    assert NodeOk(w, h, p, t);
    KeptNothing(w, h, p, t);
  }

  lemma OfferedFields(
    w: World, h: History, p: nat, s: Node, round: Round, from: nat, value: ValueId, pol: Option<Round>, ok: bool)
    requires HonestRounds(w, h, s.highest) && HonestOffers(w, h, s.proposals)
    requires from in w.nodes && from < w.n ==> SignedOffer(from, round, value, pol) in h.offers && round <= h.reached
    ensures var t := Offered(Cfg(w, p), s, round, from, value, pol, ok);
            HonestRounds(w, h, t.highest) && HonestOffers(w, h, t.proposals)
  {
    if WellFormedProposal(Cfg(w, p), round, from, pol) && InWindow(s, round) {
      NotedHonestly(w, h, s, from, round);
      OfferKeptHonestly(w, h, s.proposals, p, round, from, value, pol);
    }
  }

  lemma OfferKeptHonestly(
    w: World, h: History, proposals: map<Round, Offer>, p: nat,
    round: Round, from: nat, value: ValueId, pol: Option<Round>)
    requires HonestOffers(w, h, proposals) && WellFormedProposal(Cfg(w, p), round, from, pol)
    requires from in w.nodes && from < w.n ==> SignedOffer(from, round, value, pol) in h.offers
    ensures HonestOffers(w, h, proposals[round := Offer(value, pol)])
  {
    assert Proposer(Cfg(w, 0), round) == Proposer(Cfg(w, p), round);
  }

  lemma StartStep(w: World, h: History, p: nat, s: Node, now: U64)
    requires WorldOk(w) && HistoryOk(w, h) && NodeOk(w, h, p, s) && p in w.nodes && !s.started
    requires Inv(Cfg(w, p), Started(Cfg(w, p), s, now).node)
    ensures var x := Started(Cfg(w, p), s, now); Kept(w, h, p, s, x.node, x.acts)
  {
    var c := Cfg(w, p);
    var u := s.(started := true);
    NodeOkCongruent(w, h, p, s, u);
    if c.me.Some? && c.n > 0 && (!s.resumed || s.step.Propose?) {
      EnterStep(w, h, p, u, now, u.round);
    } else {
      QuietStart(w, h, p, s, now);
    }
  }

  lemma QuietStart(w: World, h: History, p: nat, s: Node, now: U64)
    requires HistoryOk(w, h) && NodeOk(w, h, p, s) && !s.started
    requires p < w.n ==> s.resumed && !s.step.Propose?
    requires Inv(Cfg(w, p), Started(Cfg(w, p), s, now).node)
    ensures var x := Started(Cfg(w, p), s, now); Kept(w, h, p, s, x.node, x.acts)
  {
    var x := Started(Cfg(w, p), s, now);
    assert x.acts == [];
    NodeOkCongruent(w, h, p, s, x.node);
    KeptNothing(w, h, p, x.node);
  }

  lemma HeardStep(w: World, h: History, p: nat, s: Node, kind: VoteKind, round: Round, from: nat, ballot: Ballot)
    requires HistoryOk(w, h) && NodeOk(w, h, p, s)
    requires from in w.nodes && from < w.n ==> SignedVote(from, kind, round, ballot) in h.votes
    ensures NodeOk(w, h, p, Heard(Cfg(w, p), s, kind, round, from, ballot))
  {
    var c := Cfg(w, p);
    var t := Heard(c, s, kind, round, from, ballot);
    HeardKeeps(c, s, kind, round, from, ballot);
    if from < c.n && Some(from) != c.me {
      BookGainsVote(w, h, kind, BookOf(s, kind), round, from, ballot);
      HeardFields(w, h, c, s, kind, round, from, ballot);
      assert NodeOk(w, h, p, t);
    }
  }

  lemma HeardFields(w: World, h: History, c: Config, s: Node, kind: VoteKind, round: Round, from: nat, ballot: Ballot)
    requires HonestRounds(w, h, s.highest) && from < w.n && (from in w.nodes ==> round <= h.reached)
    requires HonestBook(w, h, VoteKind.Prevote, s.prevotes) && HonestBook(w, h, VoteKind.Precommit, s.precommits)
    requires HonestBook(w, h, kind, Record(BookOf(s, kind), round, from, ballot))
    ensures var t := Heard(c, s, kind, round, from, ballot);
            && HonestRounds(w, h, t.highest)
            && HonestBook(w, h, VoteKind.Prevote, t.prevotes) && HonestBook(w, h, VoteKind.Precommit, t.precommits)
  {
    NotedHonestly(w, h, s, from, round);
    HeardChanges(c, s, kind, round, from, ballot);
  }

  lemma HeardChanges(c: Config, s: Node, kind: VoteKind, round: Round, from: nat, ballot: Ballot)
    ensures var t, book := Heard(c, s, kind, round, from, ballot), Record(BookOf(s, kind), round, from, ballot);
            && (t.highest == s.highest || t.highest == NoteRound(s, from, round).highest)
            && (t.prevotes == s.prevotes || (kind.Prevote? && t.prevotes == book))
            && (t.precommits == s.precommits || (kind.Precommit? && t.precommits == book))
  {
  }

  lemma NotedHonestly(w: World, h: History, s: Node, from: nat, round: Round)
    requires HonestRounds(w, h, s.highest) && from < w.n && (from in w.nodes ==> round <= h.reached)
    ensures HonestRounds(w, h, NoteRound(s, from, round).highest)
  {
  }

  /** A correct node that handles a call, whatever it is told, leaves everything in order. */
  lemma CallKept(w: World, h: History, p: nat, s: Node, call: Call, t: Node, out: seq<Action>)
    requires WorldOk(w) && HistoryOk(w, h) && Sound(w, h, p, s) && p in w.nodes
    requires Authentic(w, h, call) && Returns(Cfg(w, p), s, call, t, out)
    ensures Kept(w, h, p, s, t, out) && Sound(w, Grown(h, p, t, out), p, t)
  {
    var c := Cfg(w, p);
    CallKeepsTimers(c, s, call, t, out);
    CallRests(c, s, call, t, out);
    match call
    case Carry(_) =>
      NodeOkCongruent(w, h, p, s, t);
      KeptNothing(w, h, p, t);
    case Tick(now) =>
      TickKept(w, h, p, s, now, t, out);
    case _ =>
      if call.Start? && s.started {
        KeptNothing(w, h, p, s);
      } else {
        PlainKept(w, h, p, s, call, t, out);
      }
  }

  lemma PlainKept(w: World, h: History, p: nat, s: Node, call: Call, t: Node, out: seq<Action>)
    requires WorldOk(w) && HistoryOk(w, h) && NodeOk(w, h, p, s) && p in w.nodes && Authentic(w, h, call)
    requires !call.Tick? && !call.Carry? && !(call.Start? && s.started) && Returns(Cfg(w, p), s, call, t, out)
    ensures Kept(w, h, p, s, t, out)
  {
    var first := FirstEffect(Cfg(w, p), s, call);
    var rest: seq<Action> :| Progressed(Cfg(w, p), first.node, call.now, t, rest) && out == first.acts + rest;
    FirstEffectStep(w, h, p, s, call);
    ProgressKept(w, h, p, s, first.node, first.acts, call.now, t, rest);
  }

  lemma TickKept(w: World, h: History, p: nat, s: Node, now: U64, t: Node, out: seq<Action>)
    requires WorldOk(w) && HistoryOk(w, h) && Sound(w, h, p, s) && p in w.nodes
    requires Ticked(Cfg(w, p), s, now, t, out)
    ensures Kept(w, h, p, s, t, out)
  {
    var c := Cfg(w, p);
    var due := DueTimers(s, now);
    var script: seq<seq<Pick>>, rest: seq<Action> :|
      && |script| == |due| && LegalScript(c, Drained(s, now), now, due, script)
      && Progressed(c, Handled(c, Drained(s, now), now, due, script).node, now, t, rest)
      && out == Handled(c, Drained(s, now), now, due, script).acts + rest;
    var mid := Handled(c, Drained(s, now), now, due, script);
    DrainGood(c, s, now);
    NodeOkCongruent(w, h, p, s, Drained(s, now));
    assert due + [] == due;
    HandledKept(w, h, p, Drained(s, now), now, due, script, []);
    ProgressKept(w, h, p, s, mid.node, mid.acts, now, t, rest);
  }

  // ----- whole runs

  lemma SoundGrows(w: World, h: History, h': History, q: nat, s: Node)
    requires Sound(w, h, q, s) && Extends(h, h')
    requires forall x :: x in h'.votes && x.from == q ==> x in h.votes
    ensures Sound(w, h', q, s)
  {
    NodeOkGrows(w, h, h', q, s);
  }

  lemma RebornSound(w: World, h: History, p: nat, s: Node, saved: Saved)
    requires NodeOk(w, h, p, s) && IsSaved(Cfg(w, p), s, saved)
    ensures Sound(w, h, p, Restored(Cfg(w, p), NEW, saved))
  {
    var c := Cfg(w, p);
    var base := NEW.(round := saved.round, step := saved.step, locked := saved.locked, valid := saved.valid);
    var t := Restored(c, NEW, saved);
    RestoredGood(c, s, saved);
    ReplayedRows(c, base, saved.sent);
    ReplayedFields(c, base, saved.sent);
    OwnRowIsHonest(w, h, p, s, t, VoteKind.Prevote);
    OwnRowIsHonest(w, h, p, s, t, VoteKind.Precommit);
  }

  lemma OwnRowIsHonest(w: World, h: History, p: nat, s: Node, t: Node, kind: VoteKind)
    requires NodeOk(w, h, p, s) && t.sent == s.sent
    requires OnlyFrom(Cfg(w, p).me, BookOf(t, kind)) && (p < w.n ==> OwnRow(p, BookOf(t, kind), kind, t.sent))
    ensures HonestBook(w, h, kind, BookOf(t, kind))
  {
    forall r: Round, x: nat, b: Ballot | b in Ballots(BookOf(t, kind), r, x)
      ensures x < w.n && (x in w.nodes ==> SignedVote(x, kind, r, b) in h.votes)
    {
      assert Some(x) == Cfg(w, p).me;
      assert (r, kind) in s.sent && b == s.sent[(r, kind)];
    }
  }

  lemma InitOk(w: World, s: Sys)
    requires WorldOk(w) && Init(w, s)
    ensures SysOk(w, s)
  {
    forall p | p in w.nodes ensures Sound(w, s.past, p, NEW) {
      NewSound(w, s.past, p);
    }
  }

  lemma NewSound(w: World, h: History, p: nat)
    requires h == History({}, {}, {}, 0)
    ensures Sound(w, h, p, NEW)
  {
    NewInv(Cfg(w, p));
  }

  /** The history with the offers that were broadcast. */
  lemma OffersKept(w: World, h: History, p: nat, out: seq<Action>, h': History)
    requires HistoryOk(w, h) && h' == h.(offers := h'.offers) && h.offers <= h'.offers
    requires forall a :: a in out ==> OfferActionOk(w, h, p, a)
    requires forall o :: o in h'.offers && o !in h.offers ==> exists a :: a in out && Fulfils(p, o, a)
    ensures HistoryOk(w, h')
  {
    forall kind, round, ballot ensures Possible(w, h, kind, round, ballot) <==> Possible(w, h', kind, round, ballot) {
      assert Honest(h, kind, round, ballot) == Honest(h', kind, round, ballot);
    }
    forall o | o in h'.offers && o !in h.offers
      ensures o.from in w.nodes && o.round <= h'.reached
      ensures WellFormedProposal(Cfg(w, o.from), o.round, o.from, o.pol)
      ensures o.pol.Some? && FewFaults(w) ==> Possible(w, h', VoteKind.Prevote, o.pol.value, Some(o.value))
    {
      var a :| a in out && Fulfils(p, o, a);
    }
    if FewFaults(w) {
      forall x, y | x in h'.votes && y in h'.votes && Deserts(x, y)
        ensures Excused(w, h', y.ballot, x.round, y.round)
      {
        ExcusedGrows(w, h, h', y.ballot, x.round, y.round);
      }
    }
  }

  /** What one call changes, and what it leaves alone. */
  lemma CallFrame(w: World, s: Sys, l: Label, t: Sys)
    requires Next(w, s, l, t) && l.Acts?
    ensures var h := Grown(s.past, l.p, t.nodes[l.p], l.out);
            Extends(s.past, h) && Extends(h, t.past) && Extends(s.past, t.past) && h.votes == t.past.votes
    ensures forall x :: x in t.past.votes && x !in s.past.votes ==> x.from == l.p
    ensures l.saved.None? ==> t.past.votes == s.past.votes
    ensures t.nodes.Keys == s.nodes.Keys
    ensures forall q :: q in s.nodes && q != l.p ==>
              t.nodes[q] == s.nodes[q] && Rebirth(w, t.disk, q) == Rebirth(w, s.disk, q)
  {
  }

  lemma OthersSound(w: World, s: Sys, l: Label, t: Sys, q: nat)
    requires SysOk(w, s) && Next(w, s, l, t) && l.Acts? && q in w.nodes && q != l.p
    ensures Sound(w, t.past, q, t.nodes[q]) && Sound(w, t.past, q, Rebirth(w, t.disk, q))
  {
    CallFrame(w, s, l, t);
    SoundGrows(w, s.past, t.past, q, s.nodes[q]);
    SoundGrows(w, s.past, t.past, q, Rebirth(w, s.disk, q));
  }

  lemma ActorSound(w: World, s: Sys, l: Label, t: Sys)
    requires SysOk(w, s) && Next(w, s, l, t) && l.Acts?
    ensures HistoryOk(w, t.past) && Sound(w, t.past, l.p, t.nodes[l.p])
  {
    var h := Grown(s.past, l.p, t.nodes[l.p], l.out);
    CallFrame(w, s, l, t);
    CallKept(w, s.past, l.p, s.nodes[l.p], l.call, t.nodes[l.p], l.out);
    OffersKept(w, h, l.p, l.out, t.past);
    SoundGrows(w, h, t.past, l.p, t.nodes[l.p]);
  }

  /** What the acting node would restart from is still sound. */
  lemma DiskSound(w: World, s: Sys, l: Label, t: Sys)
    requires SysOk(w, s) && Next(w, s, l, t) && l.Acts? && Sound(w, t.past, l.p, t.nodes[l.p])
    ensures Sound(w, t.past, l.p, Rebirth(w, t.disk, l.p))
  {
    CallFrame(w, s, l, t);
    if l.saved.Some? {
      RebornSound(w, t.past, l.p, t.nodes[l.p], l.saved.value);
    } else {
      SoundGrows(w, s.past, t.past, l.p, Rebirth(w, s.disk, l.p));
    }
  }

  lemma RestartFrame(w: World, s: Sys, l: Label, t: Sys)
    requires Next(w, s, l, t) && l.Restarts?
    ensures t.past == s.past && t.disk == s.disk && t.nodes.Keys == s.nodes.Keys
    ensures forall q :: q in s.nodes ==> t.nodes[q] == if q == l.p then Rebirth(w, s.disk, q) else s.nodes[q]
  {
  }

  lemma RestartOk(w: World, s: Sys, l: Label, t: Sys)
    requires SysOk(w, s) && Next(w, s, l, t) && l.Restarts?
    ensures SysOk(w, t)
  {
    RestartFrame(w, s, l, t);
    forall q | q in w.nodes ensures Sound(w, t.past, q, t.nodes[q]) && Sound(w, t.past, q, Rebirth(w, t.disk, q)) {
      NodesRestartSound(w, s, l, t, q);
    }
  }

  lemma NodesRestartSound(w: World, s: Sys, l: Label, t: Sys, q: nat)
    requires SysOk(w, s) && q in w.nodes && q in t.nodes && t.past == s.past && t.disk == s.disk
    requires t.nodes[q] == if q == l.p then Rebirth(w, s.disk, q) else s.nodes[q]
    ensures Sound(w, t.past, q, t.nodes[q]) && Sound(w, t.past, q, Rebirth(w, t.disk, q))
  {
  }

  lemma EachSound(w: World, s: Sys, l: Label, t: Sys, q: nat)
    requires SysOk(w, s) && Next(w, s, l, t) && l.Acts? && q in w.nodes
    ensures q in t.nodes && Sound(w, t.past, q, t.nodes[q]) && Sound(w, t.past, q, Rebirth(w, t.disk, q))
  {
    if q == l.p {
      ActorSound(w, s, l, t);
      DiskSound(w, s, l, t);
    } else {
      OthersSound(w, s, l, t, q);
    }
  }

  lemma ActOk(w: World, s: Sys, l: Label, t: Sys)
    requires SysOk(w, s) && Next(w, s, l, t) && l.Acts?
    ensures SysOk(w, t)
  {
    HistoryStaysOk(w, s, l, t);
    forall q | q in w.nodes ensures Sound(w, t.past, q, t.nodes[q]) && Sound(w, t.past, q, Rebirth(w, t.disk, q)) {
      EachSound(w, s, l, t, q);
    }
  }

  lemma HistoryStaysOk(w: World, s: Sys, l: Label, t: Sys)
    requires SysOk(w, s) && Next(w, s, l, t) && l.Acts?
    ensures WorldOk(w) && HistoryOk(w, t.past) && t.nodes.Keys == w.nodes
  {
    CallFrame(w, s, l, t);
    ActorSound(w, s, l, t);
  }

  lemma NextOk(w: World, s: Sys, l: Label, t: Sys)
    requires SysOk(w, s) && Next(w, s, l, t)
    ensures SysOk(w, t)
  {
    if l.Acts? {
      ActOk(w, s, l, t);
    } else {
      RestartOk(w, s, l, t);
    }
  }

  lemma {:induction false} RunOk(w: World, states: seq<Sys>, labels: seq<Label>)
    requires Run(w, states, labels)
    ensures SysOk(w, Last(states))
  {
    if labels == [] {
      InitOk(w, states[0]);
    } else {
      var k := |labels| - 1;
      RunOk(w, states[..k + 1], labels[..k]);
      NextOk(w, states[k], labels[k], states[k + 1]);
    }
  }

  /** Agreement: in every run with fewer than a third faulty, all decisions of correct nodes,
      in whatever rounds and across whatever restarts, are for the same block. */
  lemma Agreement(w: World, states: seq<Sys>, labels: seq<Label>, d: Decided, e: Decided)
    requires Run(w, states, labels) && FewFaults(w)
    requires d in Last(states).past.decisions && e in Last(states).past.decisions
    ensures d.value == e.value
  {
    RunOk(w, states, labels);
    DecisionsAgree(w, Last(states).past, d, e);
  }

  /** Once correct nodes and faulty ones together could have precommitted `v` in round r, the
      same count never reaches a prevote quorum for another block in round r or later. */
  lemma LocksHold(w: World, states: seq<Sys>, labels: seq<Label>, r: Round, v: ValueId, later: Round, u: ValueId)
    requires Run(w, states, labels) && FewFaults(w) && r <= later
    requires Possible(w, Last(states).past, VoteKind.Precommit, r, Some(v))
    requires Possible(w, Last(states).past, VoteKind.Prevote, later, Some(u))
    ensures u == v
  {
    RunOk(w, states, labels);
    LockInduction(w, Last(states).past, r, v, later, u);
  }

  /** No correct node, however often it restarts and however many others are faulty, ever
      signs two different votes of one kind in one round. */
  lemma VoteOnce(w: World, states: seq<Sys>, labels: seq<Label>, x: SignedVote, y: SignedVote)
    requires Run(w, states, labels)
    requires x in Last(states).past.votes && y in Last(states).past.votes
    requires x.from == y.from && x.kind == y.kind && x.round == y.round
    ensures x == y
  {
    RunOk(w, states, labels);
  }

  /** On every run, every correct node's own votes, steps, rounds and timers are in order. */
  lemma NodesInOrder(w: World, states: seq<Sys>, labels: seq<Label>, p: nat)
    requires Run(w, states, labels) && p in w.nodes
    ensures p in Last(states).nodes
    ensures Inv(Cfg(w, p), Last(states).nodes[p])
    ensures NoLostTimer(Cfg(w, p), Last(states).nodes[p])
  {
    RunOk(w, states, labels);
  }

  /** Every proposal a correct node ever broadcasts comes from the proposer of its round, names
      an earlier proof-of-lock round if any, and that round could have had the polka. */
  lemma ProposalsAcceptable(w: World, states: seq<Sys>, labels: seq<Label>, o: SignedOffer)
    requires Run(w, states, labels) && o in Last(states).past.offers
    ensures WellFormedProposal(Cfg(w, o.from), o.round, o.from, o.pol)
    ensures o.pol.Some? && FewFaults(w) ==> Possible(w, Last(states).past, VoteKind.Prevote, o.pol.value, Some(o.value))
  {
    RunOk(w, states, labels);
  }
}

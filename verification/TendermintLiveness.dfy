/**
 One good round: every correct member is at the start of the same round, the proposer is correct
 and offers a block every lock allows, and messages arrive before timers run out. Then nothing
 but that block is decided, and it is proved exactly when all decide it.
 */
module TendermintLiveness {
  import opened Common
  import opened TendermintState
  import opened TendermintInvariants
  import opened TendermintNetwork
  import opened TendermintSafety
  import opened TendermintRounds
  import opened TendermintEvidence

  /** The block `v` offered in round `round` with proof-of-lock round `pol`. */
  datatype Goal = Goal(round: Round, v: ValueId, pol: Option<Round>)

  predicate LockAllows(locked: Option<RoundValue>, g: Goal) {
    locked.None? || locked.value.value == g.v || (g.pol.Some? && locked.value.round <= g.pol.value)
  }

  /** A participant that has not ruled the block out. */
  predicate Open(s: Node, v: ValueId) {
    s.started && (v in s.validity ==> s.validity[v]) && (s.carried.None? || s.carried.value == v)
  }

  predicate NodeCalm(w: World, p: nat, s: Node, g: Goal) {
    Open(s, g.v) &&
    (p < w.n ==> s.round == g.round && (s.step.Propose? ==> LockAllows(s.locked, g)))
  }

  ghost predicate AllFor(h: History, g: Goal) {
    forall x :: x in h.votes && x.round == g.round ==> x.ballot == Some(g.v)
  }

  /** Whatever could have been decided in an earlier round is the same block. */
  ghost predicate OldQuorums(w: World, h: History, g: Goal) {
    forall r: Round, u: ValueId :: r < g.round && Possible(w, h, VoteKind.Precommit, r, Some(u)) ==> u == g.v
  }

  ghost predicate OneOffer(w: World, h: History, g: Goal) {
    var from := Proposer(Cfg(w, 0), g.round);
    && from in w.nodes && from < w.n
    && forall o :: o in h.offers && o.from == from && o.round == g.round ==> o.value == g.v && o.pol == g.pol
  }

  ghost predicate HistoryCalm(w: World, h: History, g: Goal) {
    h.reached == g.round && g.round < MAX_ROUND && AllFor(h, g) && OldQuorums(w, h, g) && OneOffer(w, h, g)
  }

  // ----- one pass

  predicate CalmActs(acts: seq<Action>, g: Goal) {
    forall a :: a in acts ==> !a.Propose? && (a.Vote? ==> a.round == g.round && a.ballot == Some(g.v))
  }

  lemma CalmPolka(w: World, h: History, p: nat, s: Node, ballot: Ballot, g: Goal)
    requires WorldOk(w) && FewFaults(w) && HistoryOk(w, h) && NodeOk(w, h, p, s) && HistoryCalm(w, h, g)
    requires HasQuorum(Cfg(w, p), s.prevotes, g.round, ballot)
    ensures ballot == Some(g.v)
  {
    QuorumIsPossible(w, h, p, VoteKind.Prevote, s.prevotes, g.round, ballot);
    var x := PossibleHasVoter(w, h, VoteKind.Prevote, g.round, ballot);
  }

  lemma CalmVerdict(w: World, h: History, p: nat, s: Node, g: Goal)
    requires p < w.n && NodeOk(w, h, p, s) && HistoryCalm(w, h, g) && NodeCalm(w, p, s, g)
    requires Verdict(Cfg(w, p), s).Some?
    ensures Verdict(Cfg(w, p), s).value == Some(g.v)
  {
    assert s.proposals[g.round] == Offer(g.v, g.pol) by {
      assert Proposer(Cfg(w, 0), g.round) == Proposer(Cfg(w, p), g.round);
    }
  }

  lemma CalmCast(c: Config, s: Node, kind: VoteKind, step: Step, w: World, p: nat, g: Goal)
    requires NodeCalm(w, p, s, g) && p < w.n && !step.Propose? && s.decision.None?
    ensures var x := CastAndStep(c, s, kind, Some(g.v), step);
            NodeCalm(w, p, x.node, g) && CalmActs(x.acts, g)
  {
  }

  lemma CalmWeighing(w: World, h: History, p: nat, s: Node, now: U64, polka: Option<ValueId>, g: Goal)
    requires WorldOk(w) && FewFaults(w) && HistoryOk(w, h) && NodeOk(w, h, p, s) && p < w.n
    requires FoundPolka(Cfg(w, p), s, polka) && HistoryCalm(w, h, g) && NodeCalm(w, p, s, g) && s.decision.None?
    ensures var x := Weighed(Cfg(w, p), s, now, polka); NodeCalm(w, p, x.node, g) && CalmActs(x.acts, g)
  {
    var c := Cfg(w, p);
    if !s.step.Propose? && s.round !in s.polkaDone && polka.Some? && Acceptable(s, polka.value) {
      CalmPolka(w, h, p, s, polka, g);
      CalmHandlePolka(c, w, p, s, g);
    } else {
      NoNilQuorum(w, h, p, s, g);
    }
  }

  lemma NoNilQuorum(w: World, h: History, p: nat, s: Node, g: Goal)
    requires WorldOk(w) && FewFaults(w) && HistoryOk(w, h) && NodeOk(w, h, p, s) && HistoryCalm(w, h, g)
    ensures !HasQuorum(Cfg(w, p), s.prevotes, g.round, None)
  {
    if HasQuorum(Cfg(w, p), s.prevotes, g.round, None) {
      CalmPolka(w, h, p, s, None, g);
    }
  }

  lemma CalmHandlePolka(c: Config, w: World, p: nat, s: Node, g: Goal)
    requires NodeCalm(w, p, s, g) && p < w.n && !s.step.Propose? && s.decision.None?
    ensures var x := HandlePolka(c, s, g.v); NodeCalm(w, p, x.node, g) && CalmActs(x.acts, g)
  {
  }

  /** No correct node has been heard beyond the round, so none is skipped to. */
  lemma NothingToSkip(w: World, h: History, p: nat, s: Node)
    requires WorldOk(w) && FewFaults(w) && HonestRounds(w, h, s.highest) && h.reached <= s.round
    ensures SkipTarget(Cfg(w, p), s).None?
  {
    if SkipTarget(Cfg(w, p), s).Some? {
      var q := SkipIsHonest(w, h, p, s);
    }
  }

  lemma CalmPass(w: World, h: History, p: nat, s: Node, now: U64, pick: Pick, g: Goal)
    requires WorldOk(w) && FewFaults(w) && HistoryOk(w, h) && NodeOk(w, h, p, s) && p < w.n && s.decision.None?
    requires PickOk(Cfg(w, p), s, pick) && HistoryCalm(w, h, g) && NodeCalm(w, p, s, g) && pick.decision.None?
    ensures var x := Iteration(Cfg(w, p), s, now, pick); NodeCalm(w, p, x.node, g) && CalmActs(x.acts, g)
  {
    var c := Cfg(w, p);
    NothingToSkip(w, h, p, s);
    if Verdict(c, s).Some? {
      CalmVerdict(w, h, p, s, g);
      CalmCast(c, s, VoteKind.Prevote, Step.Prevote, w, p, g);
    } else {
      CalmRest(w, h, p, s, now, pick.polka, g);
    }
  }

  lemma CalmRest(w: World, h: History, p: nat, s: Node, now: U64, polka: Option<ValueId>, g: Goal)
    requires WorldOk(w) && FewFaults(w) && HistoryOk(w, h) && NodeOk(w, h, p, s) && p < w.n && s.decision.None?
    requires FoundPolka(Cfg(w, p), s, polka) && HistoryCalm(w, h, g) && NodeCalm(w, p, s, g)
    ensures var x := Weighed(Cfg(w, p), PrevoteArmed(Cfg(w, p), s, now), now, polka);
            NodeCalm(w, p, x.node, g) && CalmActs(x.acts, g)
  {
    ArmStep(w, h, p, s, Timer.Prevote, now);
    CalmWeighing(w, h, p, PrevoteArmed(Cfg(w, p), s, now), now, polka, g);
  }

  lemma CalmIteration(w: World, h: History, p: nat, s: Node, now: U64, pick: Pick, g: Goal)
    requires WorldOk(w) && FewFaults(w) && HistoryOk(w, h) && NodeOk(w, h, p, s)
    requires PickOk(Cfg(w, p), s, pick) && HistoryCalm(w, h, g) && NodeCalm(w, p, s, g)
    ensures var x := Iteration(Cfg(w, p), s, now, pick);
            NodeCalm(w, p, x.node, g) && CalmActs(x.acts, g) && s.round == x.node.round
  {
    if p < w.n && s.decision.None? && pick.decision.None? {
      CalmPass(w, h, p, s, now, pick, g);
    }
  }

  // ----- calls

  /** Votes of a later round change nothing about an earlier one. */
  lemma OldVotesStay(w: World, h: History, h': History, g: Goal)
    requires OldQuorums(w, h, g) && h.votes <= h'.votes
    requires forall x :: x in h'.votes && x !in h.votes ==> x.round == g.round
    ensures OldQuorums(w, h', g)
  {
    forall r: Round, u: ValueId | r < g.round && Possible(w, h', VoteKind.Precommit, r, Some(u)) ensures u == g.v {
      var before, after := Honest(h, VoteKind.Precommit, r, Some(u)), Honest(h', VoteKind.Precommit, r, Some(u));
      assert after <= before;
      SubsetSize(after, before);
      assert Possible(w, h, VoteKind.Precommit, r, Some(u));
    }
  }

  lemma HistoryCalmGrows(w: World, h: History, p: nat, t: Node, acts: seq<Action>, g: Goal)
    requires HistoryCalm(w, h, g) && CalmActs(acts, g) && t.round <= g.round
    ensures HistoryCalm(w, Grown(h, p, t, acts), g)
  {
    OldVotesStay(w, h, Grown(h, p, t, acts), g);
  }

  lemma {:induction false} CalmAfter(w: World, h: History, p: nat, s: Node, now: U64, picks: seq<Pick>, g: Goal)
    requires WorldOk(w) && FewFaults(w) && HistoryOk(w, h) && NodeOk(w, h, p, s) && p in w.nodes
    requires Legal(Cfg(w, p), s, now, picks) && HistoryCalm(w, h, g) && NodeCalm(w, p, s, g)
    ensures var x := After(Cfg(w, p), s, now, picks);
            NodeCalm(w, p, x.node, g) && CalmActs(x.acts, g) && s.round == x.node.round
  {
    if picks != [] {
      var k := |picks| - 1;
      var before := After(Cfg(w, p), s, now, picks[..k]);
      CalmAfter(w, h, p, s, now, picks[..k], g);
      AfterKept(w, h, p, s, now, picks[..k]);
      HistoryCalmGrows(w, h, p, before.node, before.acts, g);
      CalmIteration(w, Grown(h, p, before.node, before.acts), p, before.node, now, picks[k], g);
    }
  }

  lemma CalmProgress(w: World, h: History, p: nat, s: Node, now: U64, t: Node, out: seq<Action>, g: Goal)
    requires WorldOk(w) && FewFaults(w) && HistoryOk(w, h) && NodeOk(w, h, p, s) && p in w.nodes
    requires Progressed(Cfg(w, p), s, now, t, out) && HistoryCalm(w, h, g) && NodeCalm(w, p, s, g)
    ensures NodeCalm(w, p, t, g) && CalmActs(out, g) && s.round == t.round
  {
    var picks :| Legal(Cfg(w, p), s, now, picks) && After(Cfg(w, p), s, now, picks) == Turn(t, out, false);
    CalmAfter(w, h, p, s, now, picks, g);
  }

  /** No timer runs out, and whoever judges the block finds it valid. */
  predicate CalmCall(s: Node, call: Call, v: ValueId) {
    match call
    case Tick(now) => DueTimers(s, now) == []
    case OnProposal(_, _, _, value, _, ok) => value == v ==> ok
    case OnValue(_, value, ok) => value == v ==> ok
    case _ => true
  }

  lemma CallCalm(w: World, h: History, p: nat, s: Node, call: Call, t: Node, out: seq<Action>, g: Goal)
    requires WorldOk(w) && FewFaults(w) && HistoryOk(w, h) && NodeOk(w, h, p, s) && p in w.nodes
    requires Authentic(w, h, call) && Returns(Cfg(w, p), s, call, t, out) && CalmCall(s, call, g.v)
    requires HistoryCalm(w, h, g) && NodeCalm(w, p, s, g)
    ensures NodeCalm(w, p, t, g) && CalmActs(out, g) && s.round == t.round
  {
    match call
    case Carry(_) =>
    case Start(_) =>
    case Tick(now) =>
      CalmTick(w, h, p, s, now, t, out, g);
    case _ =>
      CalmNews(w, h, p, s, call, t, out, g);
  }

  lemma CalmNews(w: World, h: History, p: nat, s: Node, call: Call, t: Node, out: seq<Action>, g: Goal)
    requires WorldOk(w) && FewFaults(w) && HistoryOk(w, h) && NodeOk(w, h, p, s) && p in w.nodes
    requires call.OnProposal? || call.OnValue? || call.OnVote?
    requires Authentic(w, h, call) && Returns(Cfg(w, p), s, call, t, out) && CalmCall(s, call, g.v)
    requires HistoryCalm(w, h, g) && NodeCalm(w, p, s, g)
    ensures NodeCalm(w, p, t, g) && CalmActs(out, g) && s.round == t.round
  {
    var first := FirstEffect(Cfg(w, p), s, call);
    var rest: seq<Action> :| Progressed(Cfg(w, p), first.node, call.now, t, rest) && out == first.acts + rest;
    FirstEffectStep(w, h, p, s, call);
    CalmFirst(w, h, p, s, call, g);
    CalmProgress(w, h, p, first.node, call.now, t, rest, g);
  }

  lemma CalmTick(w: World, h: History, p: nat, s: Node, now: U64, t: Node, out: seq<Action>, g: Goal)
    requires WorldOk(w) && FewFaults(w) && HistoryOk(w, h) && NodeOk(w, h, p, s) && p in w.nodes
    requires Ticked(Cfg(w, p), s, now, t, out) && DueTimers(s, now) == []
    requires HistoryCalm(w, h, g) && NodeCalm(w, p, s, g)
    ensures NodeCalm(w, p, t, g) && CalmActs(out, g) && s.round == t.round
  {
    var mid := Drained(s, now);
    var rest: seq<Action> :| Progressed(Cfg(w, p), mid, now, t, rest) && out == [] + rest;
    NodeOkCongruent(w, h, p, s, mid);
    CalmProgress(w, h, p, mid, now, t, rest, g);
  }

  lemma CalmFirst(w: World, h: History, p: nat, s: Node, call: Call, g: Goal)
    requires NodeCalm(w, p, s, g) && CalmCall(s, call, g.v) && s.round <= h.reached
    requires call.OnProposal? || call.OnValue? || call.OnVote?
    ensures var x := FirstEffect(Cfg(w, p), s, call);
            NodeCalm(w, p, x.node, g) && x.acts == [] && x.node.round == s.round && Grown(h, p, x.node, x.acts) == h
  {
    var t := FirstEffect(Cfg(w, p), s, call).node;
    assert t.round == s.round && t.step == s.step && t.locked == s.locked;
    CalmValidity(Cfg(w, p), s, call, g.v);
    assert VotesIn(p, []) == {} && DecisionsIn(p, []) == {};
  }

  lemma CalmValidity(c: Config, s: Node, call: Call, v: ValueId)
    requires Open(s, v) && CalmCall(s, call, v) && (call.OnProposal? || call.OnValue? || call.OnVote?)
    ensures Open(FirstEffect(c, s, call).node, v)
  {
  }

  // ----- runs without timeouts

  ghost predicate SysCalm(w: World, s: Sys, g: Goal) {
    && SysOk(w, s) && SysEvident(w, s) && HistoryCalm(w, s.past, g)
    && forall p :: p in w.nodes ==> NodeCalm(w, p, s.nodes[p], g)
  }

  /** From a given state on: no crash, no timer runs out, the block is found valid. */
  ghost predicate CalmRun(w: World, v: ValueId, states: seq<Sys>, labels: seq<Label>) {
    && |states| == |labels| + 1
    && (labels != [] ==>
          var k := |labels| - 1;
          && CalmRun(w, v, states[..k + 1], labels[..k]) && Next(w, states[k], labels[k], states[k + 1])
          && labels[k].Acts? && CalmCall(states[k].nodes[labels[k].p], labels[k].call, v))
  }

  lemma NextCalm(w: World, s: Sys, l: Label, t: Sys, g: Goal)
    requires FewFaults(w) && SysCalm(w, s, g) && Next(w, s, l, t) && l.Acts? && CalmCall(s.nodes[l.p], l.call, g.v)
    ensures HistoryCalm(w, t.past, g) && forall p :: p in w.nodes ==> p in t.nodes && NodeCalm(w, p, t.nodes[p], g)
  {
    CallFrame(w, s, l, t);
    ActorCalm(w, s, l, t, g);
    forall p | p in w.nodes ensures p in t.nodes && NodeCalm(w, p, t.nodes[p], g) {
      assert p != l.p ==> t.nodes[p] == s.nodes[p] && NodeCalm(w, p, s.nodes[p], g);
    }
  }

  lemma ActorCalm(w: World, s: Sys, l: Label, t: Sys, g: Goal)
    requires FewFaults(w) && SysCalm(w, s, g) && Next(w, s, l, t) && l.Acts? && CalmCall(s.nodes[l.p], l.call, g.v)
    ensures HistoryCalm(w, t.past, g) && NodeCalm(w, l.p, t.nodes[l.p], g)
  {
    assert Sound(w, s.past, l.p, s.nodes[l.p]) && NodeCalm(w, l.p, s.nodes[l.p], g);
    CallCalm(w, s.past, l.p, s.nodes[l.p], l.call, t.nodes[l.p], l.out, g);
    PastCalm(w, s, l, t, g);
  }

  lemma PastCalm(w: World, s: Sys, l: Label, t: Sys, g: Goal)
    requires HistoryCalm(w, s.past, g) && Next(w, s, l, t) && l.Acts?
    requires CalmActs(l.out, g) && t.nodes[l.p].round <= g.round
    ensures HistoryCalm(w, t.past, g)
  {
    HistoryCalmGrows(w, s.past, l.p, t.nodes[l.p], l.out, g);
    NoNewOffers(l.p, l.out, s.past, t.past, g);
    assert t.past == Grown(s.past, l.p, t.nodes[l.p], l.out);
  }

  lemma NoNewOffers(p: nat, out: seq<Action>, h: History, h': History, g: Goal)
    requires CalmActs(out, g) && h.offers <= h'.offers
    requires forall o :: o in h'.offers && o !in h.offers ==> exists a :: a in out && Fulfils(p, o, a)
    ensures h'.offers == h.offers
  {
  }

  lemma StaysCalm(w: World, s: Sys, l: Label, t: Sys, g: Goal)
    requires FewFaults(w) && SysCalm(w, s, g) && Next(w, s, l, t) && l.Acts? && CalmCall(s.nodes[l.p], l.call, g.v)
    ensures SysCalm(w, t, g)
  {
    NextOk(w, s, l, t);
    NextEvident(w, s, l, t);
    NextCalm(w, s, l, t, g);
  }

  /** A calm run is a shorter one and a last step. */
  lemma LastCalmStep(w: World, v: ValueId, states: seq<Sys>, labels: seq<Label>)
    returns (early: seq<Sys>, past: seq<Label>, l: Label)
    requires CalmRun(w, v, states, labels) && labels != []
    ensures CalmRun(w, v, early, past) && |past| < |labels| && early[0] == states[0]
    ensures Next(w, Last(early), l, Last(states)) && l.Acts? && CalmCall(Last(early).nodes[l.p], l.call, v)
  {
    var k := |labels| - 1;
    early, past, l := states[..k + 1], labels[..k], labels[k];
    assert Last(early) == states[k] && Last(states) == states[k + 1];
  }

  lemma {:induction false} CalmRunOk(w: World, states: seq<Sys>, labels: seq<Label>, g: Goal)
    requires FewFaults(w) && CalmRun(w, g.v, states, labels) && SysCalm(w, states[0], g)
    ensures SysCalm(w, Last(states), g)
    decreases |labels|
  {
    if labels != [] {
      var early, past, l := LastCalmStep(w, g.v, states, labels);
      CalmRunOk(w, early, past, g);
      StaysCalm(w, Last(early), l, Last(states), g);
    }
  }

  // ----- the good round

  predicate AtStart(w: World, p: nat, s: Node, g: Goal) {
    Open(s, g.v) &&
    (p < w.n ==> s.decision.None? && s.round == g.round && s.step.Propose? && LockAllows(s.locked, g))
  }

  /** Every correct participant is running, no correct member has decided, all of them are at
      the first step of round g.round; its correct proposer made one offer, which every correct
      member's lock allows. */
  ghost predicate GoodStart(w: World, s: Sys, g: Goal) {
    && g.round < MAX_ROUND && OneOffer(w, s.past, g)
    && SignedOffer(Proposer(Cfg(w, 0), g.round), g.round, g.v, g.pol) in s.past.offers
    && s.nodes.Keys == w.nodes && forall p :: p in w.nodes ==> AtStart(w, p, s.nodes[p], g)
  }

  lemma GoodStartIsCalm(w: World, s: Sys, g: Goal)
    requires FewFaults(w) && SysOk(w, s) && SysEvident(w, s) && GoodStart(w, s, g)
    ensures SysCalm(w, s, g)
  {
    NobodyVoted(w, s, g);
    NobodyFurther(w, s, g);
    forall r: Round, u: ValueId | r < g.round && Possible(w, s.past, VoteKind.Precommit, r, Some(u)) ensures u == g.v {
      OldQuorumIsGoal(w, s, g, r, u);
    }
    forall p | p in w.nodes ensures NodeCalm(w, p, s.nodes[p], g) {
      assert AtStart(w, p, s.nodes[p], g);
    }
  }

  lemma NobodyVoted(w: World, s: Sys, g: Goal)
    requires SysOk(w, s) && GoodStart(w, s, g)
    ensures forall x :: x in s.past.votes ==> x.round != g.round
  {
    forall x | x in s.past.votes ensures x.round != g.round {
      assert Sound(w, s.past, x.from, s.nodes[x.from]) && AtStart(w, x.from, s.nodes[x.from], g);
      NotVotedYet(w, s.past, x.from, s.nodes[x.from], x);
    }
  }

  /** No correct node, not even one that has restarted since, was ever past the round: it would
      have taken a correct precommit in it. */
  lemma NobodyFurther(w: World, s: Sys, g: Goal)
    requires SysOk(w, s) && SysEvident(w, s) && GoodStart(w, s, g)
    ensures s.past.reached == g.round
  {
    NobodyVoted(w, s, g);
    var from := Proposer(Cfg(w, 0), g.round);
    assert Sound(w, s.past, from, s.nodes[from]) && AtStart(w, from, s.nodes[from], g);
    NoPrecommitNoFurther(s.past, g.round);
  }

  lemma NoPrecommitNoFurther(h: History, r: Round)
    requires RoundsEarned(h) && !SomePrecommit(h, r)
    ensures h.reached <= r
  {
  }

  /** A node at the first step of its round has not voted in it. */
  lemma NotVotedYet(w: World, h: History, p: nat, s: Node, x: SignedVote)
    requires NodeOk(w, h, p, s) && x in h.votes && x.from == p && p < w.n && s.step.Propose? && s.round < MAX_ROUND
    ensures x.round != s.round
  {
    assert (x.round, x.kind) in s.sent;
    if x.kind.Precommit? {
      assert (x.round, VoteKind.Prevote) in s.sent;
    }
  }

  /** A block that could have been decided earlier is the one on offer: the locks of those who
      precommitted it allow nothing else. */
  lemma OldQuorumIsGoal(w: World, s: Sys, g: Goal, r: Round, u: ValueId)
    requires FewFaults(w) && SysOk(w, s) && GoodStart(w, s, g)
    requires Possible(w, s.past, VoteKind.Precommit, r, Some(u))
    ensures u == g.v
  {
    var x := PossibleHasVoter(w, s.past, VoteKind.Precommit, r, Some(u));
    var lock := LockOf(w, s, g, x);
    if lock.value == g.v {
      LockInduction(w, s.past, r, u, lock.round, lock.value);
    } else {
      OfferIsBacked(w, s.past, g);
      LockInduction(w, s.past, r, u, g.pol.value, g.v);
    }
  }

  /** The lock of a member that precommitted a block is no older, and has a polka behind it. */
  lemma LockOf(w: World, s: Sys, g: Goal, x: SignedVote) returns (lock: RoundValue)
    requires FewFaults(w) && SysOk(w, s) && GoodStart(w, s, g)
    requires x in s.past.votes && x.kind.Precommit? && x.ballot.Some?
    ensures lock.round >= x.round && LockAllows(Some(lock), g)
    ensures Possible(w, s.past, VoteKind.Prevote, lock.round, Some(lock.value))
  {
    var node := s.nodes[x.from];
    assert Sound(w, s.past, x.from, node) && AtStart(w, x.from, node, g);
    assert (x.round, x.kind) in node.sent && node.sent[(x.round, x.kind)] == x.ballot;
    lock := node.locked.value;
  }

  lemma OfferIsBacked(w: World, h: History, g: Goal)
    requires FewFaults(w) && OffersOk(w, h) && g.pol.Some?
    requires SignedOffer(Proposer(Cfg(w, 0), g.round), g.round, g.v, g.pol) in h.offers
    ensures Possible(w, h, VoteKind.Prevote, g.pol.value, Some(g.v))
  {
  }

  /** All that correct members sent in the round has arrived, and so have the block and, at a
      member, the offer and the prevotes that back its proof-of-lock round. */
  ghost predicate Received(w: World, h: History, p: nat, s: Node, g: Goal) {
    && g.v in s.validity
    && (p < w.n ==>
          g.round in s.proposals && (g.pol.Some? ==> HasQuorum(Cfg(w, p), s.prevotes, g.pol.value, Some(g.v))))
    && (forall x :: x in h.votes && x.round == g.round ==>
          x.ballot in Ballots(BookOf(s, x.kind), g.round, x.from))
  }

  ghost predicate Delivered(w: World, s: Sys, g: Goal) {
    forall p :: p in w.nodes ==> p in s.nodes && Received(w, s.past, p, s.nodes[p], g)
  }

  /** Every precommit a correct member ever sent for the block has arrived. */
  ghost predicate PrecommitsArrived(w: World, s: Sys, v: ValueId) {
    forall p, x :: p in w.nodes && x in s.past.votes && x.kind.Precommit? && x.ballot == Some(v) ==>
      p in s.nodes && x.ballot in Ballots(s.nodes[p].precommits, x.round, x.from)
  }

  /** The precommits for the block that faulty members sent to a correct member which has decided
      have reached the others. */
  ghost predicate FaultyPassedOn(w: World, s: Sys, v: ValueId) {
    forall p, q, r: Round, x ::
      && p in w.nodes && q in w.nodes && p in s.nodes && q in s.nodes && x in w.faulty
      && p < w.n && s.nodes[p].decision.Some? && Some(v) in Ballots(s.nodes[p].precommits, r, x)
      ==> Some(v) in Ballots(s.nodes[q].precommits, r, x)
  }

  predicate DecidedOn(s: Node, v: ValueId) {
    s.decision.Some? && s.decision.value.value == v
  }

  /** Some correct member decided before it had precommitted in the round. */
  predicate DecidedEarly(w: World, nodes: map<nat, Node>, round: Round) {
    exists q :: q in w.nodes && q in nodes && q < w.n && nodes[q].decision.Some? && !Precommitted(nodes[q].sent, round)
  }

  ghost predicate AllDecided(w: World, nodes: map<nat, Node>, v: ValueId) {
    forall p :: p in w.nodes ==> p in nodes && DecidedOn(nodes[p], v)
  }

  /** The participant holds a precommit quorum for the block, of whatever round. */
  ghost predicate HoldsQuorum(w: World, p: nat, s: Node, v: ValueId) {
    exists r: Round :: HasQuorum(Cfg(w, p), s.precommits, r, Some(v))
  }

  ghost predicate AllHoldQuorum(w: World, nodes: map<nat, Node>, v: ValueId) {
    forall p :: p in w.nodes ==> p in nodes && HoldsQuorum(w, p, nodes[p], v)
  }

  /** The faulty members whose precommit for the block the participant has been sent. */
  function FaultyFor(w: World, s: Node, r: Round, v: ValueId): set<nat> {
    Voters(s.precommits, r, Some(v)) * w.faulty
  }

  /** In some round, the correct members that precommitted the block and the faulty ones that
      told the participant so make a quorum. */
  ghost predicate EnoughFor(w: World, h: History, s: Node, v: ValueId) {
    exists r: Round :: |Honest(h, VoteKind.Precommit, r, Some(v))| + |FaultyFor(w, s, r, v)| >= Quorum(w.n)
  }

  ghost predicate EnoughForAll(w: World, s: Sys, v: ValueId) {
    forall p :: p in w.nodes ==> p in s.nodes && EnoughFor(w, s.past, s.nodes[p], v)
  }

  ghost predicate NoneElse(nodes: map<nat, Node>, v: ValueId) {
    forall p :: p in nodes && nodes[p].decision.Some? ==> DecidedOn(nodes[p], v)
  }

  // ----- one participant at the end of the round

  ghost predicate Settled(w: World, h: History, p: nat, s: Node, g: Goal) {
    && WorldOk(w) && FewFaults(w) && HistoryOk(w, h) && HistoryCalm(w, h, g)
    && Sound(w, h, p, s) && NodeCalm(w, p, s, g) && DecisionHeld(w.n, s)
  }

  lemma DecisionIsGoal(w: World, h: History, p: nat, s: Node, g: Goal)
    requires Settled(w, h, p, s, g) && s.decision.Some?
    ensures DecidedOn(s, g.v)
  {
    var d := s.decision.value;
    assert Decided(p, d.round, d.value) in h.decisions;
    var x := PossibleHasVoter(w, h, VoteKind.Precommit, d.round, Some(d.value));
  }

  /** If all correct members voted for the block, every book holds a quorum for it. */
  lemma FullQuorum(w: World, h: History, p: nat, s: Node, g: Goal, kind: VoteKind)
    requires WorldOk(w) && FewFaults(w) && Received(w, h, p, s, g)
    requires forall q :: q in w.nodes && q < w.n ==> SignedVote(q, kind, g.round, Some(g.v)) in h.votes
    ensures HasQuorum(Cfg(w, p), BookOf(s, kind), g.round, Some(g.v))
  {
    var correct := Below(w.n) - w.faulty;
    var book := BookOf(s, kind);
    forall q | q in correct ensures q in Voters(book, g.round, Some(g.v)) {
      var x := SignedVote(q, kind, g.round, Some(g.v));
      assert x in h.votes && x.ballot in Ballots(book, g.round, x.from);
    }
    SubsetSize(correct, Voters(book, g.round, Some(g.v)));
    assert |correct| == w.n - |w.faulty|;
    assert 3 * (Quorum(w.n) - 1) <= 2 * w.n;
  }

  /** A member that holds the offer and all it needs to judge it has a verdict on it. */
  lemma OfferIsJudged(w: World, h: History, p: nat, s: Node, g: Goal)
    requires NodeOk(w, h, p, s) && HistoryCalm(w, h, g) && s.round == g.round && p < w.n && Received(w, h, p, s, g)
    ensures s.step.Propose? ==> Verdict(Cfg(w, p), s).Some?
  {
    assert Proposer(Cfg(w, 0), g.round) == Proposer(Cfg(w, p), g.round);
    assert s.proposals[g.round] == Offer(g.v, g.pol);
  }

  lemma WhatWasSent(w: World, h: History, p: nat, s: Node, g: Goal, kind: VoteKind)
    requires HistoryCalm(w, h, g) && NodeOk(w, h, p, s) && (g.round, kind) in s.sent
    ensures SignedVote(p, kind, g.round, Some(g.v)) in h.votes
  {
    var k := (g.round, kind);
    assert SignedVote(p, k.1, k.0, s.sent[k]) in h.votes;
  }

  lemma HasPrevoted(w: World, h: History, p: nat, s: Node, g: Goal)
    requires Settled(w, h, p, s, g) && Received(w, h, p, s, g) && p < w.n
    requires s.decision.Some? ==> Precommitted(s.sent, g.round)
    ensures SignedVote(p, VoteKind.Prevote, g.round, Some(g.v)) in h.votes
  {
    OfferIsJudged(w, h, p, s, g);
    assert Prevoted(s.sent, g.round) by {
      assert s.decision.None? ==> Active(Cfg(w, p), s) && !s.step.Propose?;
    }
    WhatWasSent(w, h, p, s, g, VoteKind.Prevote);
  }

  lemma HasPrecommitted(w: World, h: History, p: nat, s: Node, g: Goal)
    requires Settled(w, h, p, s, g) && Received(w, h, p, s, g) && p < w.n
    requires s.decision.Some? ==> Precommitted(s.sent, g.round)
    requires SignedVote(p, VoteKind.Prevote, g.round, Some(g.v)) in h.votes
    requires HasQuorum(Cfg(w, p), s.prevotes, g.round, Some(g.v))
    ensures SignedVote(p, VoteKind.Precommit, g.round, Some(g.v)) in h.votes
  {
    if s.decision.None? {
      PolkaWasHandled(w, h, p, s, g);
    }
    WhatWasSent(w, h, p, s, g, VoteKind.Precommit);
  }

  lemma PolkaWasHandled(w: World, h: History, p: nat, s: Node, g: Goal)
    requires Settled(w, h, p, s, g) && p < w.n && s.decision.None? && g.v in s.validity
    requires SignedVote(p, VoteKind.Prevote, g.round, Some(g.v)) in h.votes
    requires HasQuorum(Cfg(w, p), s.prevotes, g.round, Some(g.v))
    ensures Precommitted(s.sent, g.round)
  {
    var c := Cfg(w, p);
    assert Prevoted(s.sent, s.round) && !s.step.Propose? && Active(c, s);
    assert Acceptable(s, g.v);
    if s.round !in s.polkaDone {
      var polka :| FoundPolka(c, s, polka) && (polka.Some? ==> !Acceptable(s, polka.value));
      if polka.Some? {
        CalmPolka(w, h, p, s, polka, g);
      }
    }
  }

  /** A participant that holds a precommit quorum for the block has decided it. */
  lemma QuorumDecides(w: World, h: History, p: nat, s: Node, g: Goal, r: Round)
    requires Settled(w, h, p, s, g) && g.v in s.validity
    requires HasQuorum(Cfg(w, p), s.precommits, r, Some(g.v))
    ensures DecidedOn(s, g.v)
  {
    OnlyThatQuorum(w, h, p, s, g, r);
    assert r in s.precommits && !MayPass(Cfg(w, p), s, r);
    DecisionIsGoal(w, h, p, s, g);
  }

  lemma OnlyThatQuorum(w: World, h: History, p: nat, s: Node, g: Goal, r: Round)
    requires WorldOk(w) && FewFaults(w) && HistoryOk(w, h) && NodeOk(w, h, p, s)
    requires HasQuorum(Cfg(w, p), s.precommits, r, Some(g.v))
    ensures forall u: ValueId :: HasQuorum(Cfg(w, p), s.precommits, r, Some(u)) ==> u == g.v
  {
    forall u: ValueId | HasQuorum(Cfg(w, p), s.precommits, r, Some(u)) ensures u == g.v {
      QuorumIsPossible(w, h, p, VoteKind.Precommit, s.precommits, r, Some(u));
      QuorumIsPossible(w, h, p, VoteKind.Precommit, s.precommits, r, Some(g.v));
      PossibleUnique(w, h, VoteKind.Precommit, r, Some(u), Some(g.v));
    }
  }

  /** A participant that knows the block has decided it exactly when it holds a quorum for it. */
  lemma DecidesIff(w: World, h: History, p: nat, s: Node, g: Goal)
    requires Settled(w, h, p, s, g) && g.v in s.validity
    ensures DecidedOn(s, g.v) <==> HoldsQuorum(w, p, s, g.v)
  {
    if DecidedOn(s, g.v) {
      assert HasQuorum(Cfg(w, p), s.precommits, s.decision.value.round, Some(g.v));
    }
    if HoldsQuorum(w, p, s, g.v) {
      var r: Round :| HasQuorum(Cfg(w, p), s.precommits, r, Some(g.v));
      QuorumDecides(w, h, p, s, g, r);
    }
  }

  /** Once the correct precommits are in, what a participant holds for the block is what correct
      members sent and what faulty ones told it. */
  lemma WhoPrecommitted(w: World, h: History, s: Node, r: Round, v: ValueId)
    requires WorldOk(w) && VotesFromMembers(w, h) && HonestBook(w, h, VoteKind.Precommit, s.precommits)
    requires forall x :: x in Honest(h, VoteKind.Precommit, r, Some(v)) ==> Some(v) in Ballots(s.precommits, r, x)
    ensures |Voters(s.precommits, r, Some(v))| ==
            |Honest(h, VoteKind.Precommit, r, Some(v))| + |FaultyFor(w, s, r, v)|
  {
    var voters, honest, faulty :=
      Voters(s.precommits, r, Some(v)), Honest(h, VoteKind.Precommit, r, Some(v)), FaultyFor(w, s, r, v);
    forall x | x in voters ensures x in honest + faulty {
      assert Some(v) in Ballots(s.precommits, r, x);
      assert x in Below(w.n);
      if x in w.nodes {
        assert SignedVote(x, VoteKind.Precommit, r, Some(v)) in h.votes;
      }
    }
    forall x | x in honest ensures x in voters && x !in w.faulty {
      assert SignedVote(x, VoteKind.Precommit, r, Some(v)) in h.votes;
    }
    assert voters == honest + faulty && honest !! faulty;
  }

  lemma EnoughIsQuorum(w: World, h: History, p: nat, s: Node, v: ValueId)
    requires WorldOk(w) && VotesFromMembers(w, h) && HonestBook(w, h, VoteKind.Precommit, s.precommits)
    requires forall x :: x in h.votes && x.kind.Precommit? && x.ballot == Some(v) ==>
               x.ballot in Ballots(s.precommits, x.round, x.from)
    ensures HoldsQuorum(w, p, s, v) <==> EnoughFor(w, h, s, v)
  {
    forall r: Round ensures |Voters(s.precommits, r, Some(v))| ==
                            |Honest(h, VoteKind.Precommit, r, Some(v))| + |FaultyFor(w, s, r, v)| {
      WhoPrecommitted(w, h, s, r, v);
    }
    assert forall r: Round :: HasQuorum(Cfg(w, p), s.precommits, r, Some(v)) <==>
        |Honest(h, VoteKind.Precommit, r, Some(v))| + |FaultyFor(w, s, r, v)| >= Quorum(w.n);
  }

  // ----- all participants at the end of the round

  ghost predicate AllSettled(w: World, h: History, nodes: map<nat, Node>, g: Goal) {
    nodes.Keys == w.nodes &&
    forall p :: p in w.nodes ==> Settled(w, h, p, nodes[p], g) && Received(w, h, p, nodes[p], g)
  }

  lemma AllPrevoted(w: World, s: Sys, g: Goal)
    requires AllSettled(w, s.past, s.nodes, g) && !DecidedEarly(w, s.nodes, g.round)
    ensures forall q :: q in w.nodes && q < w.n ==> SignedVote(q, VoteKind.Prevote, g.round, Some(g.v)) in s.past.votes
  {
    forall q | q in w.nodes && q < w.n ensures SignedVote(q, VoteKind.Prevote, g.round, Some(g.v)) in s.past.votes {
      HasPrevoted(w, s.past, q, s.nodes[q], g);
    }
  }

  lemma AllPrecommitted(w: World, s: Sys, g: Goal)
    requires AllSettled(w, s.past, s.nodes, g) && !DecidedEarly(w, s.nodes, g.round)
    ensures forall q :: q in w.nodes && q < w.n ==>
              SignedVote(q, VoteKind.Precommit, g.round, Some(g.v)) in s.past.votes
  {
    AllPrevoted(w, s, g);
    forall q | q in w.nodes && q < w.n ensures SignedVote(q, VoteKind.Precommit, g.round, Some(g.v)) in s.past.votes {
      FullQuorum(w, s.past, q, s.nodes[q], g, VoteKind.Prevote);
      HasPrecommitted(w, s.past, q, s.nodes[q], g);
    }
  }

  lemma AllDecide(w: World, s: Sys, g: Goal)
    requires AllSettled(w, s.past, s.nodes, g) && !DecidedEarly(w, s.nodes, g.round)
    ensures AllDecided(w, s.nodes, g.v)
  {
    AllPrecommitted(w, s, g);
    forall p | p in w.nodes ensures DecidedOn(s.nodes[p], g.v) {
      OneDecides(w, s.past, p, s.nodes[p], g);
    }
  }

  lemma OneDecides(w: World, h: History, p: nat, s: Node, g: Goal)
    requires Settled(w, h, p, s, g) && Received(w, h, p, s, g)
    requires forall q :: q in w.nodes && q < w.n ==> SignedVote(q, VoteKind.Precommit, g.round, Some(g.v)) in h.votes
    ensures DecidedOn(s, g.v)
  {
    FullQuorum(w, h, p, s, g, VoteKind.Precommit);
    QuorumDecides(w, h, p, s, g, g.round);
  }

  /** One early decision carries everybody with it, once its evidence has been passed on. */
  lemma EarlyDecisionSpreads(w: World, s: Sys, g: Goal)
    requires AllSettled(w, s.past, s.nodes, g) && DecidedEarly(w, s.nodes, g.round)
    requires PrecommitsArrived(w, s, g.v) && FaultyPassedOn(w, s, g.v)
    ensures AllDecided(w, s.nodes, g.v)
  {
    var q :| q in w.nodes && q in s.nodes && q < w.n && s.nodes[q].decision.Some? &&
        !Precommitted(s.nodes[q].sent, g.round);
    assert Settled(w, s.past, q, s.nodes[q], g);
    DecisionIsGoal(w, s.past, q, s.nodes[q], g);
    var r := s.nodes[q].decision.value.round;
    forall p | p in w.nodes ensures DecidedOn(s.nodes[p], g.v) {
      EvidenceArrives(w, s, g, q, p, r);
      QuorumDecides(w, s.past, p, s.nodes[p], g, r);
    }
  }

  lemma EvidenceArrives(w: World, s: Sys, g: Goal, q: nat, p: nat, r: Round)
    requires WorldOk(w) && PrecommitsArrived(w, s, g.v) && FaultyPassedOn(w, s, g.v)
    requires p in w.nodes && q in w.nodes && p in s.nodes && q in s.nodes && q < w.n && s.nodes[q].decision.Some?
    requires HonestBook(w, s.past, VoteKind.Precommit, s.nodes[q].precommits)
    requires HasQuorum(Cfg(w, q), s.nodes[q].precommits, r, Some(g.v))
    ensures HasQuorum(Cfg(w, p), s.nodes[p].precommits, r, Some(g.v))
  {
    var there, here := Voters(s.nodes[q].precommits, r, Some(g.v)), Voters(s.nodes[p].precommits, r, Some(g.v));
    forall x | x in there ensures x in here {
      assert Some(g.v) in Ballots(s.nodes[q].precommits, r, x);
      assert x in Below(w.n);
      if x in w.nodes {
        var sent := SignedVote(x, VoteKind.Precommit, r, Some(g.v));
        assert sent in s.past.votes && sent.ballot in Ballots(s.nodes[p].precommits, sent.round, sent.from);
      }
    }
    SubsetSize(there, here);
  }

  lemma OneDecidesIff(w: World, s: Sys, g: Goal, p: nat)
    requires AllSettled(w, s.past, s.nodes, g) && p in w.nodes
    ensures p in s.nodes && (DecidedOn(s.nodes[p], g.v) <==> HoldsQuorum(w, p, s.nodes[p], g.v))
  {
    DecidesIff(w, s.past, p, s.nodes[p], g);
  }

  lemma OneEnoughIff(w: World, s: Sys, g: Goal, p: nat)
    requires AllSettled(w, s.past, s.nodes, g) && PrecommitsArrived(w, s, g.v) && p in w.nodes
    ensures p in s.nodes && (HoldsQuorum(w, p, s.nodes[p], g.v) <==> EnoughFor(w, s.past, s.nodes[p], g.v))
  {
    EnoughIsQuorum(w, s.past, p, s.nodes[p], g.v);
  }

  lemma EachDecidesIff(w: World, nodes: map<nat, Node>, v: ValueId)
    requires forall p :: p in w.nodes ==> p in nodes && (DecidedOn(nodes[p], v) <==> HoldsQuorum(w, p, nodes[p], v))
    ensures AllDecided(w, nodes, v) <==> AllHoldQuorum(w, nodes, v)
  {
  }

  lemma EachEnoughIff(w: World, s: Sys, v: ValueId)
    requires forall p :: p in w.nodes ==>
               p in s.nodes && (HoldsQuorum(w, p, s.nodes[p], v) <==> EnoughFor(w, s.past, s.nodes[p], v))
    ensures AllHoldQuorum(w, s.nodes, v) <==> EnoughForAll(w, s, v)
  {
  }

  lemma SettledDecidesIff(w: World, s: Sys, g: Goal)
    requires AllSettled(w, s.past, s.nodes, g)
    ensures AllDecided(w, s.nodes, g.v) <==> AllHoldQuorum(w, s.nodes, g.v)
  {
    forall p | p in w.nodes
      ensures p in s.nodes && (DecidedOn(s.nodes[p], g.v) <==> HoldsQuorum(w, p, s.nodes[p], g.v))
    {
      OneDecidesIff(w, s, g, p);
    }
    EachDecidesIff(w, s.nodes, g.v);
  }

  lemma SettledEnoughIff(w: World, s: Sys, g: Goal)
    requires AllSettled(w, s.past, s.nodes, g) && PrecommitsArrived(w, s, g.v)
    ensures AllHoldQuorum(w, s.nodes, g.v) <==> EnoughForAll(w, s, g.v)
  {
    forall p | p in w.nodes
      ensures p in s.nodes && (HoldsQuorum(w, p, s.nodes[p], g.v) <==> EnoughFor(w, s.past, s.nodes[p], g.v))
    {
      OneEnoughIff(w, s, g, p);
    }
    EachEnoughIff(w, s, g.v);
  }

  /** Nobody has decided anything else, and all have decided exactly if all hold a precommit
      quorum for the block. If every correct precommit for it is in, that is exactly if the
      faulty members have told everybody enough to complete one; and it is so if what they told
      a member that decided reached the others. */
  ghost predicate RoundOutcome(w: World, s: Sys, v: ValueId) {
    && NoneElse(s.nodes, v)
    && (AllDecided(w, s.nodes, v) <==> AllHoldQuorum(w, s.nodes, v))
    && (PrecommitsArrived(w, s, v) ==> (AllDecided(w, s.nodes, v) <==> EnoughForAll(w, s, v)))
    && (PrecommitsArrived(w, s, v) && FaultyPassedOn(w, s, v) ==> AllDecided(w, s.nodes, v))
  }

  lemma RoundSettles(w: World, s: Sys, g: Goal)
    requires AllSettled(w, s.past, s.nodes, g)
    ensures RoundOutcome(w, s, g.v)
  {
    forall p | p in s.nodes && s.nodes[p].decision.Some? ensures DecidedOn(s.nodes[p], g.v) {
      DecisionIsGoal(w, s.past, p, s.nodes[p], g);
    }
    SettledDecidesIff(w, s, g);
    if PrecommitsArrived(w, s, g.v) {
      SettledEnoughIff(w, s, g);
    }
    if PrecommitsArrived(w, s, g.v) && FaultyPassedOn(w, s, g.v) {
      if DecidedEarly(w, s.nodes, g.round) {
        EarlyDecisionSpreads(w, s, g);
      } else {
        AllDecide(w, s, g);
      }
    }
  }

  lemma CalmIsSettled(w: World, s: Sys, g: Goal)
    requires FewFaults(w) && SysCalm(w, s, g) && Delivered(w, s, g)
    ensures AllSettled(w, s.past, s.nodes, g)
  {
    forall p | p in w.nodes ensures Settled(w, s.past, p, s.nodes[p], g) && Received(w, s.past, p, s.nodes[p], g) {
    }
  }

  /** One good round: from a good start on any run, after any continuation without crashes or
      timeouts at whose end the round's correct messages have arrived, nobody has decided
      another block, and all have decided this one exactly under the conditions above. */
  lemma OneGoodRound(
    w: World, states: seq<Sys>, labels: seq<Label>, more: seq<Sys>, moreLabels: seq<Label>, g: Goal)
    requires Run(w, states, labels) && FewFaults(w) && GoodStart(w, Last(states), g)
    requires CalmRun(w, g.v, more, moreLabels) && more[0] == Last(states) && Delivered(w, Last(more), g)
    ensures RoundOutcome(w, Last(more), g.v)
  {
    GoodRoundEnds(w, states, labels, more, moreLabels, g);
    RoundSettles(w, Last(more), g);
  }

  /** Without faulty members nothing needs to be passed on: a good round whose correct messages
      have arrived decides. */
  lemma FaultlessRoundDecides(
    w: World, states: seq<Sys>, labels: seq<Label>, more: seq<Sys>, moreLabels: seq<Label>, g: Goal)
    requires Run(w, states, labels) && FewFaults(w) && w.faulty == {} && GoodStart(w, Last(states), g)
    requires CalmRun(w, g.v, more, moreLabels) && more[0] == Last(states) && Delivered(w, Last(more), g)
    requires PrecommitsArrived(w, Last(more), g.v)
    ensures AllDecided(w, Last(more).nodes, g.v)
  {
    OneGoodRound(w, states, labels, more, moreLabels, g);
    assert FaultyPassedOn(w, Last(more), g.v);
  }

  lemma GoodRoundEnds(
    w: World, states: seq<Sys>, labels: seq<Label>, more: seq<Sys>, moreLabels: seq<Label>, g: Goal)
    requires Run(w, states, labels) && FewFaults(w) && GoodStart(w, Last(states), g)
    requires CalmRun(w, g.v, more, moreLabels) && more[0] == Last(states) && Delivered(w, Last(more), g)
    ensures AllSettled(w, Last(more).past, Last(more).nodes, g)
  {
    RunEvident(w, states, labels);
    GoodRoundFrom(w, more, moreLabels, g);
  }

  lemma GoodRoundFrom(w: World, more: seq<Sys>, moreLabels: seq<Label>, g: Goal)
    requires CalmRun(w, g.v, more, moreLabels) && FewFaults(w) && SysOk(w, more[0]) && SysEvident(w, more[0])
    requires GoodStart(w, more[0], g) && Delivered(w, Last(more), g)
    ensures AllSettled(w, Last(more).past, Last(more).nodes, g)
  {
    GoodStartIsCalm(w, more[0], g);
    CalmRunOk(w, more, moreLabels, g);
    CalmIsSettled(w, Last(more), g);
  }
}

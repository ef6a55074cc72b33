/**
 Why a good round needs gossip: a run in which every message of the correct members arrives in
 time and yet two of them do not decide. The third decides early, on precommits of which the
 faulty member sent its own to nobody else, and so never precommits itself.
 */
module TendermintStranded {
  import opened Common
  import opened TendermintState
  import opened TendermintInvariants
  import opened TendermintNetwork
  import opened TendermintSafety
  import opened TendermintLiveness

  const V: ValueId := 7
  const W := World(0, 4, {3}, {0, 1, 2}, Timeouts(0, 0, 0, 0, 0, 0))
  const GOAL := Goal(0, V, None)

  function C(p: nat): Config {
    Cfg(W, p)
  }

  // ----- calls that change nothing further

  /** Nothing has been heard from a later round. */
  ghost predicate AllAtZero(s: Node) {
    s.round == 0 && forall x :: x in s.highest ==> s.highest[x] == 0
  }

  lemma NoSkip(p: nat, s: Node)
    requires AllAtZero(s)
    ensures SkipTarget(C(p), s).None?
  {
    assert Ahead(C(p), s.highest, 1) == {};
  }

  predicate Few(book: Book) {
    book.Keys <= {0} && |Row(book, 0)| <= 2
  }

  lemma FewIsNoQuorum(p: nat, book: Book, r: Round, b: Ballot)
    requires Few(book)
    ensures !HasQuorum(C(p), book, r, b)
  {
    SubsetSize(Voters(book, r, b), Row(book, r).Keys);
    assert |Row(book, r).Keys| == |Row(book, r)|;
  }

  /** A started member below every threshold, with nothing to judge. */
  ghost predicate Waiting(p: nat, s: Node) {
    && s.started && s.decision.None? && AllAtZero(s) && Few(s.precommits) && Verdict(C(p), s).None?
    && (s.step.Propose? || (s.step.Prevote? && Few(s.prevotes)) || (s.step.Precommit? && 0 in s.polkaDone))
  }

  lemma WaitingRests(p: nat, s: Node) returns (pick: Pick)
    requires p < 3 && Waiting(p, s)
    ensures PickOk(C(p), s, pick) && Iteration(C(p), s, 0, pick) == Turn(s, [], false)
  {
    pick := Pick(None, if s.step.Prevote? then None else SomePolka(p, s));
    NoSkip(p, s);
    forall r: Round, b: Ballot ensures !HasQuorum(C(p), s.precommits, r, b) {
      FewIsNoQuorum(p, s.precommits, r, b);
    }
    if s.step.Prevote? {
      forall b: Ballot ensures !HasQuorum(C(p), s.prevotes, 0, b) {
        FewIsNoQuorum(p, s.prevotes, 0, b);
      }
    }
    assert PickOk(C(p), s, pick);
  }

  ghost function SomePolka(p: nat, s: Node): (polka: Option<ValueId>)
    ensures FoundPolka(C(p), s, polka)
  {
    if exists v: ValueId :: HasQuorum(C(p), s.prevotes, s.round, Some(v))
    then
      var v: ValueId :| HasQuorum(C(p), s.prevotes, s.round, Some(v));
      Some(v)
    else None
  }

  lemma OnePass(c: Config, s: Node, pick: Pick, t: Node, out: seq<Action>)
    requires PickOk(c, s, pick) && Iteration(c, s, 0, pick) == Turn(t, out, false)
    ensures Progressed(c, s, 0, t, out)
  {
    assert [pick][..0] == [] && [] + out == out;
    assert Legal(c, s, 0, []) && After(c, s, 0, []) == Turn(s, [], true);
    assert Legal(c, s, 0, [pick]) && After(c, s, 0, [pick]) == Turn(t, out, false);
  }

  lemma TwoPasses(c: Config, s: Node, pick: Pick, t: Node, out: seq<Action>, last: Pick)
    requires PickOk(c, s, pick) && Iteration(c, s, 0, pick) == Turn(t, out, true)
    requires PickOk(c, t, last) && Iteration(c, t, 0, last) == Turn(t, [], false)
    ensures Progressed(c, s, 0, t, out)
  {
    assert [pick][..0] == [] && [pick, last][..1] == [pick] && [] + out == out && out + [] == out;
    assert Legal(c, s, 0, []) && After(c, s, 0, []) == Turn(s, [], true);
    assert Legal(c, s, 0, [pick]) && After(c, s, 0, [pick]) == Turn(t, out, true);
    assert Legal(c, s, 0, [pick, last]) && After(c, s, 0, [pick, last]) == Turn(t, out, false);
  }

  lemma AddsNothing(acts: seq<Action>)
    ensures acts + [] == acts && [] + acts == acts
  {
  }

  /** A vote that leaves the node waiting. */
  lemma QuietVote(p: nat, s: Node, kind: VoteKind, from: nat)
    requires p < 3 && Waiting(p, Heard(C(p), s, kind, 0, from, Some(V)))
    ensures Returns(C(p), s, Call.OnVote(0, kind, 0, from, Some(V)), Heard(C(p), s, kind, 0, from, Some(V)), [])
  {
    var t := Heard(C(p), s, kind, 0, from, Some(V));
    var pick := WaitingRests(p, t);
    OnePass(C(p), t, pick, t, []);
    AddsNothing([]);
    ReturnsAfter(C(p), s, Call.OnVote(0, kind, 0, from, Some(V)), t, []);
  }

  lemma PrevoteAfterDecision(p: nat, s: Node, from: nat)
    requires s.decision.Some? && HasQuorum(C(p), s.precommits, 0, Some(V)) && Acceptable(s, V)
    ensures Returns(C(p), s, Call.OnVote(0, VoteKind.Prevote, 0, from, Some(V)),
                    Heard(C(p), s, VoteKind.Prevote, 0, from, Some(V)), [])
  {
    var t := Heard(C(p), s, VoteKind.Prevote, 0, from, Some(V));
    var pick := Pick(Some(RoundValue(0, V)), SomePolka(p, t));
    OnePass(C(p), t, pick, t, []);
    AddsNothing([]);
    ReturnsAfter(C(p), s, Call.OnVote(0, VoteKind.Prevote, 0, from, Some(V)), t, []);
  }

  // ----- the members that are stranded

  const PROPOSE_TIMER := Pending(Timer.Propose, 0, 0)

  function Begun(): Node {
    Node(0, Step.Propose, None, None, map[], map[], map[], map[], map[], map[],
         [PROPOSE_TIMER], {(Timer.Propose, 0)}, {}, None, true, false, None)
  }

  function Judging(): Node {
    Begun().(proposals := map[0 := Offer(V, None)], validity := map[V := true], highest := map[0 := 0])
  }

  function AfterPrevote(p: nat): Node {
    Judging().(step := Step.Prevote, prevotes := map[0 := map[p := [Some(V)]]],
               sent := map[(0, VoteKind.Prevote) := Some(V)])
  }

  function Both(p: nat): map<nat, seq<Ballot>>
    requires p < 2
  {
    map[p := [Some(V)]][1 - p := [Some(V)]]
  }

  function HeardOther(p: nat): Node
    requires p < 2
  {
    AfterPrevote(p).(prevotes := map[0 := Both(p)], highest := if p == 0 then map[0 := 0][1 := 0] else map[0 := 0])
  }

  function Polka(p: nat): Node
    requires p < 2
  {
    HeardOther(p).(prevotes := map[0 := Both(p)[3 := [Some(V)]]], highest := HeardOther(p).highest[3 := 0])
  }

  function AfterLock(p: nat): Node
    requires p < 2
  {
    Polka(p).(step := Step.Precommit, locked := Some(RoundValue(0, V)), valid := Some(RoundValue(0, V)),
              precommits := map[0 := map[p := [Some(V)]]], polkaDone := {0},
              sent := map[(0, VoteKind.Prevote) := Some(V)][(0, VoteKind.Precommit) := Some(V)],
              timers := [PROPOSE_TIMER, Pending(Timer.Prevote, 0, 0)],
              armed := {(Timer.Propose, 0), (Timer.Prevote, 0)})
  }

  function Stranded(p: nat): Node
    requires p < 2
  {
    AfterLock(p).(precommits := map[0 := Both(p)])
  }

  lemma Starting(p: nat)
    requires p < 3
    ensures Started(C(p), NEW, 0).node == Begun()
    ensures Started(C(p), NEW, 0).acts == if p == 0 then [Action.Propose(0, None, None)] else []
  {
    assert [] + [PROPOSE_TIMER] == [PROPOSE_TIMER];
    assert {} + {(Timer.Propose, 0)} == {(Timer.Propose, 0)};
  }

  lemma Begins(p: nat, out: seq<Action>)
    requires p < 3 && out == if p == 0 then [Action.Propose(0, None, None)] else []
    ensures Returns(C(p), NEW, Call.Start(0), Begun(), out)
  {
    Starting(p);
    var pick := WaitingRests(p, Begun());
    OnePass(C(p), Begun(), pick, Begun(), []);
    AddsNothing(out);
    ReturnsAfter(C(p), NEW, Call.Start(0), Begun(), []);
  }

  lemma NoDecisionYet(p: nat, s: Node)
    requires s.precommits == map[]
    ensures FoundDecision(C(p), s, None)
  {
  }

  lemma PrevotingPass(p: nat)
    requires p < 2
    ensures var pick := Pick(None, SomePolka(p, Judging()));
            && PickOk(C(p), Judging(), pick)
            && Iteration(C(p), Judging(), 0, pick) ==
               Turn(AfterPrevote(p), [Action.Vote(VoteKind.Prevote, 0, Some(V))], true)
  {
    NoSkip(p, Judging());
    NoDecisionYet(p, Judging());
    assert [] + [Some(V)] == [Some(V)];
  }

  lemma Prevotes(p: nat)
    requires p < 2
    ensures Returns(C(p), Begun(), Call.OnProposal(0, 0, 0, V, None, true), AfterPrevote(p),
        [Action.Vote(VoteKind.Prevote, 0, Some(V))])
  {
    var out := [Action.Vote(VoteKind.Prevote, 0, Some(V))];
    assert Offered(C(p), Begun(), 0, 0, V, None, true) == Judging();
    PrevotingPass(p);
    SmallRow(p);
    var last := WaitingRests(p, AfterPrevote(p));
    TwoPasses(C(p), Judging(), Pick(None, SomePolka(p, Judging())), AfterPrevote(p), out, last);
    AddsNothing(out);
    ReturnsAfter(C(p), Begun(), Call.OnProposal(0, 0, 0, V, None, true), AfterPrevote(p), out);
  }

  lemma SmallRow(p: nat)
    ensures Few(map[0 := map[p := [Some(V)]]])
    ensures p < 2 ==> Few(map[0 := Both(p)])
  {
    assert map[0 := map[p := [Some(V)]]].Keys == {0};
    if p < 2 {
      assert map[0 := Both(p)].Keys == {0};
    }
  }

  /** One more voter in a book that has one round. */
  lemma OneMoreRow(row: map<nat, seq<Ballot>>, from: nat)
    requires from !in row
    ensures Record(map[0 := row], 0, from, Some(V)) == map[0 := row[from := [Some(V)]]]
  {
    assert [] + [Some(V)] == [Some(V)];
  }

  lemma HearsOther(p: nat)
    requires p < 2
    ensures Returns(C(p), AfterPrevote(p), Call.OnVote(0, VoteKind.Prevote, 0, 1 - p, Some(V)), HeardOther(p), [])
  {
    OtherHeard(p);
    SmallRow(p);
    QuietVote(p, AfterPrevote(p), VoteKind.Prevote, 1 - p);
  }

  lemma OtherHeard(p: nat)
    requires p < 2
    ensures Heard(C(p), AfterPrevote(p), VoteKind.Prevote, 0, 1 - p, Some(V)) == HeardOther(p)
  {
    OneMoreRow(map[p := [Some(V)]], 1 - p);
    assert NoteRound(AfterPrevote(p), 1 - p, 0) == AfterPrevote(p).(highest := HeardOther(p).highest);
  }

  /** Three voters for one ballot are a quorum of four. */
  lemma ThreeIsQuorum(p: nat, book: Book, a: nat, b: nat, c: nat)
    requires a != b && b != c && a != c && {a, b, c} <= Voters(book, 0, Some(V))
    ensures HasQuorum(C(p), book, 0, Some(V))
  {
    SubsetSize({a, b, c}, Voters(book, 0, Some(V)));
    assert |{a, b, c}| == 3;
  }

  lemma PolkaHeard(p: nat)
    requires p < 2
    ensures Heard(C(p), HeardOther(p), VoteKind.Prevote, 0, 3, Some(V)) == Polka(p)
    ensures HasQuorum(C(p), Polka(p).prevotes, 0, Some(V)) && |Row(Polka(p).prevotes, 0)| == 3
  {
    OneMoreRow(Both(p), 3);
    assert {p, 1 - p, 3} <= Voters(Polka(p).prevotes, 0, Some(V));
    ThreeIsQuorum(p, Polka(p).prevotes, p, 1 - p, 3);
  }

  lemma LockingPass(p: nat)
    requires p < 2
    ensures var pick := Pick(None, Some(V));
            && PickOk(C(p), Polka(p), pick)
            && Iteration(C(p), Polka(p), 0, pick) ==
               Turn(AfterLock(p), [Action.Vote(VoteKind.Precommit, 0, Some(V))], true)
  {
    PolkaHeard(p);
    NoSkip(p, Polka(p));
    NoDecisionYet(p, Polka(p));
    LockingWeighs(p);
  }

  lemma LockingWeighs(p: nat)
    requires p < 2
    ensures Weighed(C(p), PrevoteArmed(C(p), Polka(p), 0), 0, Some(V)) ==
            Turn(AfterLock(p), [Action.Vote(VoteKind.Precommit, 0, Some(V))], true)
  {
    TimerArmed(p);
    PolkaTaken(p);
  }

  lemma PolkaTaken(p: nat)
    requires p < 2
    ensures HandlePolka(C(p), Polka(p).(timers := AfterLock(p).timers, armed := AfterLock(p).armed), V) ==
            Effect(AfterLock(p), [Action.Vote(VoteKind.Precommit, 0, Some(V))])
  {
    assert [] + [Some(V)] == [Some(V)] && {} + {0} == {0};
  }

  lemma TimerArmed(p: nat)
    requires p < 2
    ensures PrevoteArmed(C(p), Polka(p), 0) == Polka(p).(timers := AfterLock(p).timers, armed := AfterLock(p).armed)
  {
    PolkaHeard(p);
    assert [PROPOSE_TIMER] + [Pending(Timer.Prevote, 0, 0)] == [PROPOSE_TIMER, Pending(Timer.Prevote, 0, 0)];
    assert {(Timer.Propose, 0)} + {(Timer.Prevote, 0)} == {(Timer.Propose, 0), (Timer.Prevote, 0)};
  }

  lemma Locks(p: nat)
    requires p < 2
    ensures Returns(C(p), HeardOther(p), Call.OnVote(0, VoteKind.Prevote, 0, 3, Some(V)), AfterLock(p),
        [Action.Vote(VoteKind.Precommit, 0, Some(V))])
  {
    var out := [Action.Vote(VoteKind.Precommit, 0, Some(V))];
    PolkaHeard(p);
    LockingPass(p);
    SmallRow(p);
    var last := WaitingRests(p, AfterLock(p));
    TwoPasses(C(p), Polka(p), Pick(None, Some(V)), AfterLock(p), out, last);
    AddsNothing(out);
    ReturnsAfter(C(p), HeardOther(p), Call.OnVote(0, VoteKind.Prevote, 0, 3, Some(V)), AfterLock(p), out);
  }

  lemma IsStranded(p: nat)
    requires p < 2
    ensures Returns(C(p), AfterLock(p), Call.OnVote(0, VoteKind.Precommit, 0, 1 - p, Some(V)), Stranded(p), [])
  {
    StrandedHears(p);
    SmallRow(p);
    QuietVote(p, AfterLock(p), VoteKind.Precommit, 1 - p);
  }

  lemma StrandedHears(p: nat)
    requires p < 2
    ensures Heard(C(p), AfterLock(p), VoteKind.Precommit, 0, 1 - p, Some(V)) == Stranded(p)
  {
    OneMoreRow(map[p := [Some(V)]], 1 - p);
    assert 1 - p in AfterLock(p).highest && AfterLock(p).highest[1 - p] == 0;
    assert NoteRound(AfterLock(p), 1 - p, 0) == AfterLock(p);
  }

  // ----- the member that decides early

  function Three(): map<nat, seq<Ballot>> {
    Both(0)[3 := [Some(V)]]
  }

  /** Member 2 after the first k of the precommits of 0 and 1. */
  function Listening(k: nat): Node
    requires 1 <= k <= 2
  {
    if k == 1 then Begun().(precommits := map[0 := map[0 := [Some(V)]]], highest := map[0 := 0])
    else Begun().(precommits := map[0 := Both(0)], highest := map[0 := 0][1 := 0])
  }

  lemma Listens()
    ensures Returns(C(2), Begun(), Call.OnVote(0, VoteKind.Precommit, 0, 0, Some(V)), Listening(1), [])
    ensures Returns(C(2), Listening(1), Call.OnVote(0, VoteKind.Precommit, 0, 1, Some(V)), Listening(2), [])
  {
    assert [] + [Some(V)] == [Some(V)];
    assert Heard(C(2), Begun(), VoteKind.Precommit, 0, 0, Some(V)) == Listening(1);
    OneMoreRow(map[0 := [Some(V)]], 1);
    assert Heard(C(2), Listening(1), VoteKind.Precommit, 0, 1, Some(V)) == Listening(2);
    SmallRow(0);
    QuietVote(2, Begun(), VoteKind.Precommit, 0);
    QuietVote(2, Listening(1), VoteKind.Precommit, 1);
  }

  /** The faulty precommit completes a quorum for a block member 2 does not know yet. */
  function Overheard(): Node {
    Begun().(precommits := map[0 := Three()], highest := map[0 := 0][1 := 0][3 := 0])
  }

  function Puzzled(): Node {
    Overheard().(timers := [PROPOSE_TIMER, Pending(Timer.Precommit, 0, 0)],
                 armed := {(Timer.Propose, 0), (Timer.Precommit, 0)})
  }

  lemma ThreePrecommits(s: Node)
    requires s.precommits == map[0 := Three()]
    ensures HasQuorum(C(2), s.precommits, 0, Some(V)) && |Row(s.precommits, 0)| == 3
  {
    ThreeIsQuorum(2, s.precommits, 0, 1, 3);
  }

  lemma UnknownBlock()
    ensures FoundDecision(C(2), Overheard(), None) && |Row(Overheard().precommits, 0)| == 3
  {
    ThreePrecommits(Overheard());
    assert MayPass(C(2), Overheard(), 0) by { assert !Acceptable(Overheard(), V); }
  }

  lemma PuzzlingPass()
    ensures var pick := Pick(None, SomePolka(2, Overheard()));
            PickOk(C(2), Overheard(), pick) && Iteration(C(2), Overheard(), 0, pick) == Turn(Puzzled(), [], false)
  {
    UnknownBlock();
    NoSkip(2, Overheard());
    Puzzles(SomePolka(2, Overheard()));
  }

  lemma Puzzles(polka: Option<ValueId>)
    ensures Weighed(C(2), PrevoteArmed(C(2), Overheard(), 0), 0, polka) == Turn(Puzzled(), [], false)
  {
    UnknownBlock();
    assert [PROPOSE_TIMER] + [Pending(Timer.Precommit, 0, 0)] == [PROPOSE_TIMER, Pending(Timer.Precommit, 0, 0)];
    assert {(Timer.Propose, 0)} + {(Timer.Precommit, 0)} == {(Timer.Propose, 0), (Timer.Precommit, 0)};
  }

  lemma IsPuzzled()
    ensures Returns(C(2), Listening(2), Call.OnVote(0, VoteKind.Precommit, 0, 3, Some(V)), Puzzled(), [])
  {
    OneMoreRow(Both(0), 3);
    assert Heard(C(2), Listening(2), VoteKind.Precommit, 0, 3, Some(V)) == Overheard();
    PuzzlingPass();
    OnePass(C(2), Overheard(), Pick(None, SomePolka(2, Overheard())), Puzzled(), []);
    AddsNothing([]);
    ReturnsAfter(C(2), Listening(2), Call.OnVote(0, VoteKind.Precommit, 0, 3, Some(V)), Puzzled(), []);
  }

  function Informed(): Node {
    Puzzled().(proposals := map[0 := Offer(V, None)], validity := map[V := true])
  }

  function DecidedNode(): Node {
    Informed().(decision := Some(RoundValue(0, V)), timers := [])
  }

  lemma Decides()
    ensures Returns(C(2), Puzzled(), Call.OnProposal(0, 0, 0, V, None, true), DecidedNode(), [Action.Decide(0, V)])
  {
    assert Offered(C(2), Puzzled(), 0, 0, V, None, true) == Informed();
    ThreePrecommits(Informed());
    var pick := Pick(Some(RoundValue(0, V)), SomePolka(2, Informed()));
    OnePass(C(2), Informed(), pick, DecidedNode(), [Action.Decide(0, V)]);
    AddsNothing([Action.Decide(0, V)]);
    ReturnsAfter(C(2), Puzzled(), Call.OnProposal(0, 0, 0, V, None, true), DecidedNode(), [Action.Decide(0, V)]);
  }

  /** Member 2 then hears the prevotes of 0 and 1, too late to matter. */
  function Late(k: nat): Node
    requires 1 <= k <= 2
  {
    DecidedNode().(prevotes := map[0 := if k == 1 then map[0 := [Some(V)]] else Both(0)])
  }

  lemma HearsLate()
    ensures Returns(C(2), DecidedNode(), Call.OnVote(0, VoteKind.Prevote, 0, 0, Some(V)), Late(1), [])
    ensures Returns(C(2), Late(1), Call.OnVote(0, VoteKind.Prevote, 0, 1, Some(V)), Late(2), [])
  {
    assert [] + [Some(V)] == [Some(V)];
    assert Heard(C(2), DecidedNode(), VoteKind.Prevote, 0, 0, Some(V)) == Late(1);
    OneMoreRow(map[0 := [Some(V)]], 1);
    assert Heard(C(2), Late(1), VoteKind.Prevote, 0, 1, Some(V)) == Late(2);
    ThreePrecommits(DecidedNode());
    ThreePrecommits(Late(1));
    PrevoteAfterDecision(2, DecidedNode(), 0);
    PrevoteAfterDecision(2, Late(1), 1);
  }

  // ----- the committee

  /** The committee after one of its correct members made a call. */
  function Said(s: Sys, p: nat, n: Node, out: seq<Action>, saved: Option<Saved>): Sys {
    var offer := if out == [Action.Propose(0, None, None)] then {SignedOffer(p, 0, V, None)} else {};
    Sys(s.nodes[p := n], if saved.Some? then s.disk[p := saved.value] else s.disk,
        Grown(s.past, p, n, out).(offers := s.past.offers + offer))
  }

  lemma SaidIsNext(s: Sys, p: nat, call: Call, n: Node, out: seq<Action>, saved: Option<Saved>)
    requires p in W.nodes && p in s.nodes && Authentic(W, s.past, call) && Returns(Cfg(W, p), s.nodes[p], call, n, out)
    requires if saved.Some? then IsSaved(Cfg(W, p), n, saved.value) else VotesIn(p, out) == {}
    ensures Next(W, s, Acts(p, call, out, saved), Said(s, p, n, out, saved))
  {
    var t := Said(s, p, n, out, saved);
    forall o | o in t.past.offers && o !in s.past.offers ensures exists a :: a in out && Fulfils(p, o, a) {
      assert out[0] in out && Fulfils(p, o, out[0]);
    }
  }

  /** A run that goes on with one more call. */
  lemma Goes(states: seq<Sys>, labels: seq<Label>, p: nat, call: Call, n: Node, out: seq<Action>, saved: Option<Saved>)
    requires |states| == |labels| + 1 && p in W.nodes && p in Last(states).nodes
    requires Authentic(W, Last(states).past, call)
    requires if saved.Some? then IsSaved(Cfg(W, p), n, saved.value) else VotesIn(p, out) == {}
    ensures Returns(Cfg(W, p), Last(states).nodes[p], call, n, out) ==>
              var more, acts := states + [Said(Last(states), p, n, out, saved)], labels + [Acts(p, call, out, saved)];
              && (Run(W, states, labels) ==> Run(W, more, acts))
              && (CalmRun(W, V, states, labels) && CalmCall(Last(states).nodes[p], call, V) ==>
                    CalmRun(W, V, more, acts))
  {
    var t, l := Said(Last(states), p, n, out, saved), Acts(p, call, out, saved);
    if Returns(Cfg(W, p), Last(states).nodes[p], call, n, out) {
      SaidIsNext(Last(states), p, call, n, out, saved);
      assert (states + [t])[..|labels| + 1] == states && (labels + [l])[..|labels|] == labels;
    }
  }

  /** What the committee looks like: its three correct members and the votes they sent. */
  predicate Scene(s: Sys, a: Node, b: Node, c: Node, votes: set<SignedVote>) {
    && s.nodes.Keys == {0, 1, 2} && s.nodes[0] == a && s.nodes[1] == b && s.nodes[2] == c
    && s.past.votes == votes && s.past.reached == 0 && s.past.offers == {SignedOffer(0, 0, V, None)}
  }

  function VoteOf(p: nat, kind: VoteKind): SignedVote {
    SignedVote(p, kind, 0, Some(V))
  }

  lemma SaidNothing(s: Sys, p: nat, n: Node)
    requires n.round <= s.past.reached
    ensures Said(s, p, n, [], None) == s.(nodes := s.nodes[p := n]) && VotesIn(p, []) == {}
  {
    assert VotesIn(p, []) == {} && DecisionsIn(p, []) == {};
    assert Grown(s.past, p, n, []) == s.past;
  }

  lemma SaidVote(s: Sys, p: nat, n: Node, kind: VoteKind, saved: Saved)
    requires n.round <= s.past.reached
    ensures var t := Said(s, p, n, [Action.Vote(kind, 0, Some(V))], Some(saved));
            t.nodes == s.nodes[p := n] && t.past == s.past.(votes := s.past.votes + {VoteOf(p, kind)})
  {
    GrownByVote(s.past, p, n, Action.Vote(kind, 0, Some(V)));
  }

  lemma SaidDecision(s: Sys, p: nat, n: Node)
    requires n.round <= s.past.reached
    ensures var t := Said(s, p, n, [Action.Decide(0, V)], None);
            && t.nodes == s.nodes[p := n] && t.past == s.past.(decisions := s.past.decisions + {Decided(p, 0, V)})
            && VotesIn(p, [Action.Decide(0, V)]) == {}
  {
    GrownByDecision(s.past, p, n, Action.Decide(0, V));
    assert VotesIn(p, [Action.Decide(0, V)]) == {};
  }

  lemma SaidOffer(s: Sys, n: Node)
    requires n.round <= s.past.reached
    ensures var out := [Action.Propose(0, None, None)];
            var t := Said(s, 0, n, out, None);
            && t.nodes == s.nodes[0 := n] && t.past == s.past.(offers := s.past.offers + {SignedOffer(0, 0, V, None)})
            && VotesIn(0, out) == {}
  {
    var out := [Action.Propose(0, None, None)];
    assert VotesIn(0, out) == {} && DecisionsIn(0, out) == {};
    assert Grown(s.past, 0, n, out) == s.past;
  }

  // ----- the run

  /** The first member starts and makes its offer. */
  lemma FirstStarts() returns (states: seq<Sys>, labels: seq<Label>)
    ensures Run(W, states, labels) && Scene(Last(states), Begun(), NEW, NEW, {})
  {
    AtRest();
    Begins(0, [Action.Propose(0, None, None)]);
    states, labels := ProposesNow(FIRST, Begun());
    FirstScene(Last(states));
  }

  lemma FirstScene(s: Sys)
    requires s.nodes == FIRST.nodes[0 := Begun()]
    requires s.past == FIRST.past.(offers := FIRST.past.offers + {SignedOffer(0, 0, V, None)})
    ensures Scene(s, Begun(), NEW, NEW, {})
  {
  }

  const FIRST := Sys(map[0 := NEW, 1 := NEW, 2 := NEW], map[], History({}, {}, {}, 0))

  lemma AtRest()
    ensures Run(W, [FIRST], [])
  {
    OneFaultOfFour();
    AllNew();
  }

  lemma OneFaultOfFour()
    ensures WorldOk(W) && FewFaults(W)
  {
    assert forall i: nat :: i in Below(4) <==> i < 4;
  }

  lemma AllNew()
    ensures Init(W, FIRST)
  {
  }

  lemma ProposesNow(s: Sys, n: Node) returns (states: seq<Sys>, labels: seq<Label>)
    requires Run(W, [s], []) && 0 in s.nodes && n.round == 0 && s.past.reached == 0
    ensures states != [] && Last(states).nodes == s.nodes[0 := n]
    ensures Last(states).past == s.past.(offers := s.past.offers + {SignedOffer(0, 0, V, None)})
    ensures Returns(Cfg(W, 0), s.nodes[0], Call.Start(0), n, [Action.Propose(0, None, None)]) ==> Run(W, states, labels)
  {
    var out := [Action.Propose(0, None, None)];
    SaidOffer(s, n);
    Goes([s], [], 0, Call.Start(0), n, out, None);
    states, labels := [s] + [Said(s, 0, n, out, None)], [] + [Acts(0, Call.Start(0), out, None)];
  }

  /** A call that makes the node say nothing. */
  lemma Silent(states: seq<Sys>, labels: seq<Label>, p: nat, call: Call, n: Node)
    returns (more: seq<Sys>, acts: seq<Label>)
    requires |states| == |labels| + 1 && p < 3 && p in Last(states).nodes && n.round <= Last(states).past.reached
    requires Authentic(W, Last(states).past, call)
    ensures |more| > 1 && more[0] == states[0] && Last(more) == Last(states).(nodes := Last(states).nodes[p := n])
    ensures Returns(Cfg(W, p), Last(states).nodes[p], call, n, []) ==>
              && (Run(W, states, labels) ==> Run(W, more, acts))
              && (CalmRun(W, V, states, labels) && CalmCall(Last(states).nodes[p], call, V) ==>
                    CalmRun(W, V, more, acts))
  {
    SaidNothing(Last(states), p, n);
    Goes(states, labels, p, call, n, [], None);
    more, acts := states + [Said(Last(states), p, n, [], None)], labels + [Acts(p, call, [], None)];
  }

  lemma Starts() returns (states: seq<Sys>, labels: seq<Label>)
    ensures Run(W, states, labels) && Scene(Last(states), Begun(), Begun(), Begun(), {})
  {
    states, labels := FirstStarts();
    Begins(1, []);
    SceneChanges(Last(states), Begun(), NEW, NEW, {}, 1, Begun());
    states, labels := Silent(states, labels, 1, Call.Start(0), Begun());
    Begins(2, []);
    SceneChanges(Last(states), Begun(), Begun(), NEW, {}, 2, Begun());
    states, labels := Silent(states, labels, 2, Call.Start(0), Begun());
  }

  lemma StartIsGood(s: Sys)
    requires Scene(s, Begun(), Begun(), Begun(), {})
    ensures GoodStart(W, s, GOAL)
  {
    assert Proposer(Cfg(W, 0), 0) == 0;
  }

  function At(p: nat, a: Node, b: Node, c: Node): Node {
    if p == 0 then a else if p == 1 then b else c
  }

  /** A calm run from `first` that has come to the given scene. */
  ghost predicate Playing(
    states: seq<Sys>, labels: seq<Label>, first: Sys, a: Node, b: Node, c: Node, votes: set<SignedVote>)
  {
    CalmRun(W, V, states, labels) && states[0] == first && Scene(Last(states), a, b, c, votes)
  }

  /** The vote is from the faulty member, or was really sent. */
  predicate Sent(votes: set<SignedVote>, from: nat, kind: VoteKind) {
    from == 3 || (from < 3 && VoteOf(from, kind) in votes)
  }

  lemma Hears(
    states: seq<Sys>, labels: seq<Label>, first: Sys, a: Node, b: Node, c: Node, votes: set<SignedVote>,
    p: nat, kind: VoteKind, from: nat, n: Node)
    returns (more: seq<Sys>, acts: seq<Label>)
    requires Playing(states, labels, first, a, b, c, votes) && p < 3 && n.round == 0 && Sent(votes, from, kind)
    ensures |more| > 1 && more[0] == first
    ensures Scene(Last(more), if p == 0 then n else a, if p == 1 then n else b, if p == 2 then n else c, votes)
    ensures Returns(C(p), At(p, a, b, c), Call.OnVote(0, kind, 0, from, Some(V)), n, []) ==> CalmRun(W, V, more, acts)
  {
    assert C(p) == Cfg(W, p) && At(p, a, b, c) == Last(states).nodes[p];
    SceneChanges(Last(states), a, b, c, votes, p, n);
    more, acts := Silent(states, labels, p, Call.OnVote(0, kind, 0, from, Some(V)), n);
  }

  lemma SceneChanges(s: Sys, a: Node, b: Node, c: Node, votes: set<SignedVote>, p: nat, n: Node)
    requires Scene(s, a, b, c, votes) && p < 3
    ensures Scene(s.(nodes := s.nodes[p := n]), if p == 0 then n else a, if p == 1 then n else b,
        if p == 2 then n else c, votes)
  {
  }

  lemma SceneGains(s: Sys, t: Sys, a: Node, b: Node, c: Node, votes: set<SignedVote>, p: nat, n: Node, kind: VoteKind)
    requires Scene(s, a, b, c, votes) && p < 2 && t.nodes == s.nodes[p := n]
    requires t.past == s.past.(votes := s.past.votes + {VoteOf(p, kind)})
    ensures Scene(t, if p == 0 then n else a, if p == 1 then n else b, c, votes + {VoteOf(p, kind)})
  {
  }

  function Prompt(from: nat): Call {
    if from == 0 then Call.OnProposal(0, 0, 0, V, None, true) else Call.OnVote(0, VoteKind.Prevote, 0, 3, Some(V))
  }

  lemma PromptIsGenuine(h: History, s: Node, from: nat)
    requires h.offers == {SignedOffer(0, 0, V, None)}
    ensures Authentic(W, h, Prompt(from)) && CalmCall(s, Prompt(from), V)
  {
  }

  /** Member 0 or 1 votes, on the offer or on the faulty prevote. */
  lemma Votes(
    states: seq<Sys>, labels: seq<Label>, first: Sys, a: Node, b: Node, c: Node, votes: set<SignedVote>,
    p: nat, from: nat, kind: VoteKind, n: Node, saved: Saved)
    returns (more: seq<Sys>, acts: seq<Label>)
    requires Playing(states, labels, first, a, b, c, votes) && p < 2 && n.round == 0 && IsSaved(Cfg(W, p), n, saved)
    ensures |more| > 1 && more[0] == first
    ensures Scene(Last(more), if p == 0 then n else a, if p == 1 then n else b, c, votes + {VoteOf(p, kind)})
    ensures Returns(C(p), At(p, a, b, c), Prompt(from), n, [Action.Vote(kind, 0, Some(V))]) ==>
              CalmRun(W, V, more, acts)
  {
    assert C(p) == Cfg(W, p) && At(p, a, b, c) == Last(states).nodes[p];
    var call, out := Prompt(from), [Action.Vote(kind, 0, Some(V))];
    PromptIsGenuine(Last(states).past, Last(states).nodes[p], from);
    SaidVote(Last(states), p, n, kind, saved);
    SceneGains(Last(states), Said(Last(states), p, n, out, Some(saved)), a, b, c, votes, p, n, kind);
    Goes(states, labels, p, call, n, out, Some(saved));
    more, acts := states + [Said(Last(states), p, n, out, Some(saved))], labels + [Acts(p, call, out, Some(saved))];
  }

  lemma DecidesEarly(
    states: seq<Sys>, labels: seq<Label>, first: Sys, a: Node, b: Node, c: Node, votes: set<SignedVote>, n: Node)
    returns (more: seq<Sys>, acts: seq<Label>)
    requires Playing(states, labels, first, a, b, c, votes) && n.round == 0
    ensures |more| > 1 && more[0] == first && Scene(Last(more), a, b, n, votes)
    ensures Returns(C(2), c, Call.OnProposal(0, 0, 0, V, None, true), n, [Action.Decide(0, V)]) ==>
        CalmRun(W, V, more, acts)
  {
    var call, out := Call.OnProposal(0, 0, 0, V, None, true), [Action.Decide(0, V)];
    SaidDecision(Last(states), 2, n);
    Goes(states, labels, 2, call, n, out, None);
    more, acts := states + [Said(Last(states), 2, n, out, None)], labels + [Acts(2, call, out, None)];
  }

  const PREVOTES := {VoteOf(0, VoteKind.Prevote), VoteOf(1, VoteKind.Prevote)}
  const VOTES := PREVOTES + {VoteOf(0, VoteKind.Precommit)} + {VoteOf(1, VoteKind.Precommit)}

  function SavedPrevote(): Saved {
    Saved(0, 0, Step.Prevote, None, None, [Entry(0, VoteKind.Prevote, Some(V))])
  }

  function SavedPrecommit(): Saved {
    Saved(0, 0, Step.Precommit, Some(RoundValue(0, V)), Some(RoundValue(0, V)),
          [Entry(0, VoteKind.Prevote, Some(V)), Entry(0, VoteKind.Precommit, Some(V))])
  }

  lemma SavesFit(p: nat)
    requires p < 2
    ensures IsSaved(Cfg(W, p), AfterPrevote(p), SavedPrevote()) && IsSaved(Cfg(W, p), AfterLock(p), SavedPrecommit())
  {
    var one, two := SavedPrevote().sent, SavedPrecommit().sent;
    assert one[..0] == [] && two[..1] == one;
    assert SentMap(one) == map[(0, VoteKind.Prevote) := Some(V)];
  }

  lemma PrevotesNow(
    states: seq<Sys>, labels: seq<Label>, first: Sys, a: Node, b: Node, c: Node, votes: set<SignedVote>, p: nat)
    returns (more: seq<Sys>, acts: seq<Label>)
    requires Playing(states, labels, first, a, b, c, votes) && p < 2 && At(p, a, b, c) == Begun()
    ensures Playing(more, acts, first, if p == 0 then AfterPrevote(0) else a, if p == 1 then AfterPrevote(1) else b, c,
                    votes + {VoteOf(p, VoteKind.Prevote)})
  {
    SavesFit(p);
    Prevotes(p);
    more, acts := Votes(states, labels, first, a, b, c, votes, p, 0, VoteKind.Prevote, AfterPrevote(p), SavedPrevote());
  }

  lemma LocksNow(
    states: seq<Sys>, labels: seq<Label>, first: Sys, a: Node, b: Node, c: Node, votes: set<SignedVote>, p: nat)
    returns (more: seq<Sys>, acts: seq<Label>)
    requires Playing(states, labels, first, a, b, c, votes) && p < 2 && At(p, a, b, c) == HeardOther(p)
    ensures Playing(more, acts, first, if p == 0 then AfterLock(0) else a, if p == 1 then AfterLock(1) else b, c,
                    votes + {VoteOf(p, VoteKind.Precommit)})
  {
    SavesFit(p);
    Locks(p);
    more, acts := Votes(states, labels, first, a, b, c, votes, p, 3, VoteKind.Precommit, AfterLock(p),
        SavedPrecommit());
  }

  lemma HearsOtherNow(
    states: seq<Sys>, labels: seq<Label>, first: Sys, a: Node, b: Node, c: Node, votes: set<SignedVote>, p: nat)
    returns (more: seq<Sys>, acts: seq<Label>)
    requires Playing(states, labels, first, a, b, c, votes) && p < 2 && At(p, a, b, c) == AfterPrevote(p)
    requires VoteOf(1 - p, VoteKind.Prevote) in votes
    ensures Playing(more, acts, first, if p == 0 then HeardOther(0) else a, if p == 1 then HeardOther(1) else b, c,
                    votes)
  {
    HearsOther(p);
    more, acts := Hears(states, labels, first, a, b, c, votes, p, VoteKind.Prevote, 1 - p, HeardOther(p));
  }

  lemma StrandsNow(
    states: seq<Sys>, labels: seq<Label>, first: Sys, a: Node, b: Node, c: Node, votes: set<SignedVote>, p: nat)
    returns (more: seq<Sys>, acts: seq<Label>)
    requires Playing(states, labels, first, a, b, c, votes) && p < 2 && At(p, a, b, c) == AfterLock(p)
    requires VoteOf(1 - p, VoteKind.Precommit) in votes
    ensures Playing(more, acts, first, if p == 0 then Stranded(0) else a, if p == 1 then Stranded(1) else b, c, votes)
  {
    IsStranded(p);
    more, acts := Hears(states, labels, first, a, b, c, votes, p, VoteKind.Precommit, 1 - p, Stranded(p));
  }

  lemma BothPrevote(first: Sys) returns (states: seq<Sys>, labels: seq<Label>)
    requires Scene(first, Begun(), Begun(), Begun(), {})
    ensures Playing(states, labels, first, HeardOther(0), HeardOther(1), Begun(), PREVOTES)
  {
    states, labels := PrevotesNow([first], [], first, Begun(), Begun(), Begun(), {}, 0);
    var votes := {} + {VoteOf(0, VoteKind.Prevote)};
    states, labels := PrevotesNow(states, labels, first, AfterPrevote(0), Begun(), Begun(), votes, 1);
    assert votes + {VoteOf(1, VoteKind.Prevote)} == PREVOTES;
    states, labels := HearsOtherNow(states, labels, first, AfterPrevote(0), AfterPrevote(1), Begun(), PREVOTES, 0);
    states, labels := HearsOtherNow(states, labels, first, HeardOther(0), AfterPrevote(1), Begun(), PREVOTES, 1);
  }

  lemma BothLock(states: seq<Sys>, labels: seq<Label>, first: Sys) returns (more: seq<Sys>, acts: seq<Label>)
    requires Playing(states, labels, first, HeardOther(0), HeardOther(1), Begun(), PREVOTES)
    ensures Playing(more, acts, first, AfterLock(0), AfterLock(1), Begun(), VOTES)
  {
    more, acts := LocksNow(states, labels, first, HeardOther(0), HeardOther(1), Begun(), PREVOTES, 0);
    var votes := PREVOTES + {VoteOf(0, VoteKind.Precommit)};
    more, acts := LocksNow(more, acts, first, AfterLock(0), HeardOther(1), Begun(), votes, 1);
  }

  lemma BothStrand(states: seq<Sys>, labels: seq<Label>, first: Sys) returns (more: seq<Sys>, acts: seq<Label>)
    requires Playing(states, labels, first, AfterLock(0), AfterLock(1), Begun(), VOTES)
    ensures Playing(more, acts, first, Stranded(0), Stranded(1), Begun(), VOTES)
  {
    more, acts := StrandsNow(states, labels, first, AfterLock(0), AfterLock(1), Begun(), VOTES, 0);
    more, acts := StrandsNow(more, acts, first, Stranded(0), AfterLock(1), Begun(), VOTES, 1);
  }

  lemma ThirdHears(states: seq<Sys>, labels: seq<Label>, first: Sys) returns (more: seq<Sys>, acts: seq<Label>)
    requires Playing(states, labels, first, Stranded(0), Stranded(1), Begun(), VOTES)
    ensures Playing(more, acts, first, Stranded(0), Stranded(1), Puzzled(), VOTES)
  {
    Listens();
    more, acts := Hears(states, labels, first, Stranded(0), Stranded(1), Begun(), VOTES, 2, VoteKind.Precommit, 0,
        Listening(1));
    more, acts := Hears(more, acts, first, Stranded(0), Stranded(1), Listening(1), VOTES, 2, VoteKind.Precommit, 1,
        Listening(2));
    IsPuzzled();
    more, acts := Hears(more, acts, first, Stranded(0), Stranded(1), Listening(2), VOTES, 2, VoteKind.Precommit, 3,
        Puzzled());
  }

  lemma ThirdDecides(states: seq<Sys>, labels: seq<Label>, first: Sys) returns (more: seq<Sys>, acts: seq<Label>)
    requires Playing(states, labels, first, Stranded(0), Stranded(1), Puzzled(), VOTES)
    ensures Playing(more, acts, first, Stranded(0), Stranded(1), Late(2), VOTES)
  {
    Decides();
    more, acts := DecidesEarly(states, labels, first, Stranded(0), Stranded(1), Puzzled(), VOTES, DecidedNode());
    HearsLate();
    more, acts := Hears(more, acts, first, Stranded(0), Stranded(1), DecidedNode(), VOTES, 2, VoteKind.Prevote, 0,
        Late(1));
    more, acts := Hears(more, acts, first, Stranded(0), Stranded(1), Late(1), VOTES, 2, VoteKind.Prevote, 1, Late(2));
  }

  /** Both members' votes are in the book. */
  predicate HasBoth(book: Book) {
    Some(V) in Ballots(book, 0, 0) && Some(V) in Ballots(book, 0, 1)
  }

  predicate HasAll(s: Node) {
    V in s.validity && 0 in s.proposals && HasBoth(s.prevotes) && HasBoth(s.precommits)
  }

  lemma StrandedHasAll(p: nat)
    requires p < 2
    ensures HasAll(Stranded(p)) && Stranded(p).decision.None?
  {
  }

  lemma ThirdHasAll()
    ensures HasAll(Late(2))
  {
  }

  lemma HasReceived(p: nat, h: History, s: Node)
    requires p < 3 && h.votes == VOTES && HasAll(s)
    ensures Received(W, h, p, s, GOAL)
  {
    forall x | x in h.votes ensures x.ballot in Ballots(BookOf(s, x.kind), 0, x.from) {
      assert x.ballot == Some(V) && (x.from == 0 || x.from == 1);
    }
  }

  lemma AllReceived(s: Sys)
    requires s.past.votes == VOTES && forall p :: p in W.nodes ==> p in s.nodes && HasAll(s.nodes[p])
    ensures Delivered(W, s, GOAL)
  {
    forall p | p in W.nodes ensures Received(W, s.past, p, s.nodes[p], GOAL) {
      HasReceived(p, s.past, s.nodes[p]);
    }
  }

  lemma EndHasAll(s: Sys)
    requires Scene(s, Stranded(0), Stranded(1), Late(2), VOTES)
    ensures forall p :: p in W.nodes ==> p in s.nodes && HasAll(s.nodes[p])
  {
    StrandedHasAll(0);
    StrandedHasAll(1);
    ThirdHasAll();
  }

  /** There were no earlier rounds, so the precommits of the round are all there were. */
  lemma NoOtherPrecommits(s: Sys)
    requires s.past.votes == VOTES && Delivered(W, s, GOAL)
    ensures PrecommitsArrived(W, s, V)
  {
    forall p, x | p in W.nodes && x in s.past.votes && x.kind.Precommit?
      ensures p in s.nodes && x.ballot in Ballots(s.nodes[p].precommits, x.round, x.from)
    {
      assert Received(W, s.past, p, s.nodes[p], GOAL) && x.round == 0;
      assert x.ballot in Ballots(BookOf(s.nodes[p], x.kind), 0, x.from);
    }
  }

  lemma Undecided(s: Sys)
    requires Scene(s, Stranded(0), Stranded(1), Late(2), VOTES)
    ensures !AllDecided(W, s.nodes, V)
  {
    StrandedHasAll(0);
    assert !DecidedOn(s.nodes[0], V);
  }

  /** The whole round. */
  lemma Plays(first: Sys) returns (states: seq<Sys>, labels: seq<Label>)
    requires Scene(first, Begun(), Begun(), Begun(), {})
    ensures Playing(states, labels, first, Stranded(0), Stranded(1), Late(2), VOTES)
  {
    states, labels := BothPrevote(first);
    states, labels := BothLock(states, labels, first);
    states, labels := BothStrand(states, labels, first);
    states, labels := ThirdHears(states, labels, first);
    states, labels := ThirdDecides(states, labels, first);
  }

  /** All the hypotheses of OneGoodRound hold, every correct message of the run has arrived, and
      two correct members are left without a decision. */
  lemma GoodRoundNeedsGossip()
    returns (states: seq<Sys>, labels: seq<Label>, more: seq<Sys>, moreLabels: seq<Label>)
    ensures Run(W, states, labels) && FewFaults(W) && GoodStart(W, Last(states), GOAL)
    ensures CalmRun(W, GOAL.v, more, moreLabels) && more[0] == Last(states) && Delivered(W, Last(more), GOAL)
    ensures PrecommitsArrived(W, Last(more), GOAL.v) && !AllDecided(W, Last(more).nodes, GOAL.v)
  {
    OneFaultOfFour();
    states, labels := Starts();
    StartIsGood(Last(states));
    more, moreLabels := Plays(Last(states));
    EndHasAll(Last(more));
    AllReceived(Last(more));
    NoOtherPrecommits(Last(more));
    Undecided(Last(more));
  }
}

/**
 Where the guarantees about steps and timers end: a run, from the start, of a committee of one
 that hears no proposal and times out through every round of the 32-bit counter. The last round
 is entered again by its own timeout, and there the node stays, with no timer pending.
 */
module TendermintLastRound {
  import opened Common
  import opened TendermintState
  import opened TendermintInvariants
  import opened TendermintNetwork

  const W := World(0, 1, {}, {0}, Timeouts(0, 0, 0, 0, 0, 0))
  const C := Config(0, 1, Some(0), Timeouts(0, 0, 0, 0, 0, 0))
  const NOTHING := Pick(None, None)

  /** What the rounds so far have left behind: nil votes, and timers that were armed. */
  datatype Trail = Trail(prevotes: Book, precommits: Book, sent: Sent, armed: set<(Timer, Round)>, entries: seq<Entry>)

  function At(r: Round, step: Step, x: Trail, timers: seq<Pending>): Node {
    Node(r, step, None, None, map[], map[], x.prevotes, x.precommits, map[], x.sent, timers, x.armed, {}, None,
         true, false, None)
  }

  function Due(timer: Timer, r: Round): Pending {
    Pending(timer, r, 0)
  }

  const NIL: map<nat, seq<Ballot>> := map[0 := [None]]

  predicate NilBook(book: Book) {
    forall r :: r in book ==> book[r] == NIL
  }

  /** The trail of all rounds before `r`, in which the propose timer of `r` has been armed. */
  ghost predicate Before(r: Round, x: Trail) {
    && NilBook(x.prevotes) && NilBook(x.precommits)
    && (forall q :: q in x.prevotes || q in x.precommits ==> q < r)
    && (forall k :: k in x.sent ==> k.0 < r) && (forall e :: e in x.entries ==> e.round < r)
    && (forall k :: k in x.armed ==> k.1 < r || k == (Timer.Propose, r)) && (Timer.Propose, r) in x.armed
    && StrictlySorted(x.entries) && SentMap(x.entries) == x.sent
  }

  /** After the prevote of round `r`, and after the precommit. */
  function WithPrevote(r: Round, x: Trail): Trail {
    x.(prevotes := x.prevotes[r := NIL], sent := x.sent[(r, VoteKind.Prevote) := None])
  }

  function WithPrecommit(r: Round, x: Trail): Trail {
    var y := WithPrevote(r, x);
    y.(precommits := y.precommits[r := NIL], sent := y.sent[(r, VoteKind.Precommit) := None],
       armed := y.armed + {(Timer.Prevote, r)})
  }

  function Voted(r: Round, x: Trail): Trail {
    var y := WithPrecommit(r, x);
    y.(armed := y.armed + {(Timer.Precommit, r)},
       entries := x.entries + [Entry(r, VoteKind.Prevote, None)] + [Entry(r, VoteKind.Precommit, None)])
  }

  function Entered(r: Round, x: Trail): Trail {
    x.(armed := x.armed + {(Timer.Propose, r)})
  }

  /** At the start of a round, and when it has voted there. */
  function Waiting(r: Round, x: Trail): Node {
    At(r, Step.Propose, x, [Due(Timer.Propose, r)])
  }

  function Done(r: Round, x: Trail): Node {
    At(r, Step.Precommit, Voted(r, x), [Due(Timer.Prevote, r), Due(Timer.Precommit, r)])
  }

  /** Back at the first step of the last round. */
  function Again(x: Trail): Node {
    At(MAX_ROUND, Step.Propose, Voted(MAX_ROUND, x), [])
  }

  // ----- one pass

  lemma OnlyNil(book: Book, r: Round, v: ValueId)
    requires NilBook(book)
    ensures !HasQuorum(C, book, r, Some(v))
  {
    assert Voters(book, r, Some(v)) == {};
  }

  lemma NothingFound(s: Node)
    requires NilBook(s.prevotes) && NilBook(s.precommits)
    ensures PickOk(C, s, NOTHING)
  {
    forall r: Round, v: ValueId
      ensures !HasQuorum(C, s.precommits, r, Some(v)) && !HasQuorum(C, s.prevotes, r, Some(v))
    {
      OnlyNil(s.precommits, r, v);
      OnlyNil(s.prevotes, r, v);
    }
  }

  lemma NoSkip(s: Node)
    requires s.highest == map[]
    ensures SkipTarget(C, s).None?
  {
    assert Ahead(C, s.highest, s.round + 1) == {};
  }

  /** A pass over the node changes nothing and ends the loop. */
  ghost predicate Rests(s: Node, now: U64) {
    PickOk(C, s, NOTHING) && Iteration(C, s, now, NOTHING) == Turn(s, [], false)
  }

  lemma RestingPass(s: Node, now: U64)
    requires Rests(s, now)
    ensures Legal(C, s, now, [NOTHING]) && After(C, s, now, [NOTHING]) == Turn(s, [], false)
    ensures Progressed(C, s, now, s, [])
  {
    assert [NOTHING][..0] == [];
    assert Legal(C, s, now, []) && After(C, s, now, []) == Turn(s, [], true);
  }

  lemma TwoPasses(s: Node, m: Node, a: seq<Action>, t: Node)
    requires PickOk(C, s, NOTHING) && Iteration(C, s, 0, NOTHING) == Turn(m, a, true)
    requires PickOk(C, m, NOTHING) && Iteration(C, m, 0, NOTHING) == Turn(t, [], false)
    ensures Legal(C, s, 0, [NOTHING, NOTHING]) && After(C, s, 0, [NOTHING, NOTHING]) == Turn(t, a, false)
  {
    assert [NOTHING][..0] == [] && [NOTHING, NOTHING][..1] == [NOTHING] && [] + a == a && a + [] == a;
    assert Legal(C, s, 0, []) && After(C, s, 0, []) == Turn(s, [], true);
    assert Legal(C, s, 0, [NOTHING]) && After(C, s, 0, [NOTHING]) == Turn(m, a, true);
  }

  /** Waiting for a proposal, with nothing heard of the round, or with its precommit timer spent. */
  lemma ProposeRests(r: Round, x: Trail, timers: seq<Pending>, now: U64)
    requires NilBook(x.prevotes) && NilBook(x.precommits)
    requires r in x.precommits ==> (Timer.Precommit, r) in x.armed
    ensures Rests(At(r, Step.Propose, x, timers), now)
  {
    var s := At(r, Step.Propose, x, timers);
    NothingFound(s);
    NoSkip(s);
  }

  lemma PrecommitRests(r: Round, x: Trail, timers: seq<Pending>)
    requires NilBook(x.prevotes) && NilBook(x.precommits) && (Timer.Precommit, r) in x.armed
    ensures Rests(At(r, Step.Precommit, x, timers), 0)
  {
    var s := At(r, Step.Precommit, x, timers);
    NothingFound(s);
    NoSkip(s);
  }

  // ----- the propose timer fires: the node votes nil twice

  lemma NilRecorded(book: Book, r: Round)
    requires r !in book
    ensures Record(book, r, 0, None) == book[r := NIL]
  {
    assert Ballots(book, r, 0) == [] && Ballots(book, r, 0) + [None] == [None];
    assert Row(book, r)[0 := [None]] == NIL;
  }

  lemma NilQuorum(book: Book, r: Round)
    requires r in book && book[r] == NIL
    ensures |Row(book, r)| == 1 && HasQuorum(C, book, r, None)
  {
    assert Voters(book, r, None) == {0};
  }

  lemma PrevotesNil(r: Round, x: Trail)
    requires Before(r, x)
    ensures Fired(C, Waiting(r, x).(timers := []), 0, Timer.Propose, r) ==
            Effect(At(r, Step.Prevote, WithPrevote(r, x), []), [Action.Vote(VoteKind.Prevote, r, None)])
  {
    NilRecorded(x.prevotes, r);
  }

  lemma PrevoteTimer(r: Round, x: Trail)
    requires Before(r, x)
    ensures PrevoteArmed(C, At(r, Step.Prevote, WithPrevote(r, x), []), 0) ==
            At(r, Step.Prevote, WithPrevote(r, x).(armed := x.armed + {(Timer.Prevote, r)}), [Due(Timer.Prevote, r)])
  {
    NilQuorum(WithPrevote(r, x).prevotes, r);
    assert [] + [Due(Timer.Prevote, r)] == [Due(Timer.Prevote, r)];
  }

  lemma PrecommitsNil(r: Round, x: Trail)
    requires Before(r, x)
    ensures var s := At(r, Step.Prevote, WithPrevote(r, x).(armed := x.armed + {(Timer.Prevote, r)}),
                        [Due(Timer.Prevote, r)]);
            Weighed(C, s, 0, None) == Turn(At(r, Step.Precommit, WithPrecommit(r, x), [Due(Timer.Prevote, r)]),
                                           [Action.Vote(VoteKind.Precommit, r, None)], true)
  {
    NilQuorum(WithPrevote(r, x).prevotes, r);
    NilRecorded(x.precommits, r);
  }

  lemma PrecommitTimer(r: Round, x: Trail)
    requires Before(r, x)
    ensures Iteration(C, At(r, Step.Precommit, WithPrecommit(r, x), [Due(Timer.Prevote, r)]), 0, NOTHING) ==
            Turn(Done(r, x), [], false)
  {
    var s := At(r, Step.Precommit, WithPrecommit(r, x), [Due(Timer.Prevote, r)]);
    NoSkip(s);
    NilQuorum(s.precommits, r);
    PrecommitArmed(r, x);
    assert Weighed(C, s, 0, None) == Turn(Arm(C, s, Timer.Precommit, r, 0), [], false);
  }

  lemma PrecommitArmed(r: Round, x: Trail)
    requires Before(r, x)
    ensures Arm(C, At(r, Step.Precommit, WithPrecommit(r, x), [Due(Timer.Prevote, r)]), Timer.Precommit, r, 0) ==
            Done(r, x).(timers := [Due(Timer.Prevote, r)] + [Due(Timer.Precommit, r)])
    ensures [Due(Timer.Prevote, r)] + [Due(Timer.Precommit, r)] == Done(r, x).timers
  {
    NoTimeout(Timer.Precommit, r);
  }

  lemma NoTimeout(timer: Timer, r: Round)
    ensures TimeoutOf(C.timeouts, timer, r) == 0
  {
  }

  function Votes(r: Round): seq<Action> {
    [Action.Vote(VoteKind.Prevote, r, None)] + [Action.Vote(VoteKind.Precommit, r, None)]
  }

  lemma VotingPasses(r: Round, x: Trail)
    requires Before(r, x)
    ensures var s := At(r, Step.Prevote, WithPrevote(r, x), []);
            && Legal(C, s, 0, [NOTHING, NOTHING])
            && After(C, s, 0, [NOTHING, NOTHING]) == Turn(Done(r, x), [Action.Vote(VoteKind.Precommit, r, None)], false)
  {
    var s := At(r, Step.Prevote, WithPrevote(r, x), []);
    var m := At(r, Step.Precommit, WithPrecommit(r, x), [Due(Timer.Prevote, r)]);
    NothingFound(s);
    NothingFound(m);
    NoSkip(s);
    PrevoteTimer(r, x);
    PrecommitsNil(r, x);
    PrecommitTimer(r, x);
    TwoPasses(s, m, [Action.Vote(VoteKind.Precommit, r, None)], Done(r, x));
  }

  /** A tick in which one timer fires, for what it does and what `progress` makes of it. */
  lemma OneDue(s: Node, p: Pending, m: Node, v: seq<Action>, picks: seq<Pick>, t: Node, a: seq<Action>)
    requires s.decision.None? && s.timers == [p] && p.at == 0
    ensures && Fired(C, s.(timers := []), 0, p.timer, p.round) == Effect(m, v)
            && Legal(C, m, 0, picks) && After(C, m, 0, picks) == Turn(t, a, false) && Rests(t, 0)
            ==> Ticked(C, s, 0, t, v + a)
  {
    var mid := s.(timers := []);
    if && Fired(C, mid, 0, p.timer, p.round) == Effect(m, v)
       && Legal(C, m, 0, picks) && After(C, m, 0, picks) == Turn(t, a, false) && Rests(t, 0)
    {
      DueOne(s, p);
      FirstHandled(mid, p, m, v, picks, t, a);
      RestingPass(t, 0);
      assert v + a + [] == v + a;
    }
  }

  lemma FirstHandled(s: Node, p: Pending, m: Node, v: seq<Action>, picks: seq<Pick>, t: Node, a: seq<Action>)
    requires s.decision.None? && Fired(C, s, 0, p.timer, p.round) == Effect(m, v)
    requires Legal(C, m, 0, picks) && After(C, m, 0, picks) == Turn(t, a, false)
    ensures LegalScript(C, s, 0, [p], [picks]) && Handled(C, s, 0, [p], [picks]) == Effect(t, v + a)
  {
    assert [p][..0] == [] && [picks][..0] == [] && [] + (v + a) == v + a;
    assert LegalScript(C, s, 0, [], []) && Handled(C, s, 0, [], []) == Effect(s, []);
    assert LegalOne(C, s, 0, p, picks) && HandleOne(C, s, 0, p, picks) == Effect(t, v + a);
  }

  lemma OneMoreDue(timers: seq<Pending>, p: Pending)
    requires p.at == 0
    ensures DueOnly(timers + [p], 0) == DueOnly(timers, 0) + [p] && LaterOnly(timers + [p], 0) == LaterOnly(timers, 0)
    ensures ByDeadline(timers + [p]) == Insert(ByDeadline(timers), p)
  {
    assert (timers + [p])[..|timers|] == timers;
  }

  lemma DueOne(s: Node, p: Pending)
    requires s.timers == [p] && p.at == 0
    ensures DueTimers(s, 0) == [p] && Drained(s, 0) == s.(timers := [])
  {
    assert [] + [p] == [p];
    OneMoreDue([], p);
  }

  lemma VotingTick(r: Round, x: Trail)
    requires Before(r, x)
    ensures Ticked(C, Waiting(r, x), 0, Done(r, x), Votes(r))
  {
    PrevotesNil(r, x);
    VotingPasses(r, x);
    DoneRests(r, x);
    OneDue(Waiting(r, x), Due(Timer.Propose, r),
           At(r, Step.Prevote, WithPrevote(r, x), []), [Action.Vote(VoteKind.Prevote, r, None)],
           [NOTHING, NOTHING], Done(r, x), [Action.Vote(VoteKind.Precommit, r, None)]);
  }

  lemma DoneRests(r: Round, x: Trail)
    requires Before(r, x)
    ensures Rests(Done(r, x), 0)
  {
    PrecommitRests(r, Voted(r, x), [Due(Timer.Prevote, r), Due(Timer.Precommit, r)]);
  }

  // ----- the precommit timer fires: the next round

  lemma DueTwo(s: Node, p: Pending, q: Pending)
    requires s.timers == [p, q] && p.at == q.at == 0 && p.round == q.round
    ensures DueTimers(s, 0) == [p, q] && Drained(s, 0) == s.(timers := [])
  {
    assert [] + [p] == [p] && [p] + [q] == [p, q];
    OneMoreDue([], p);
    OneMoreDue([p], q);
  }

  /** A tick with two timers due, the first of which does nothing. */
  lemma SecondDue(s: Node, p: Pending, q: Pending, fired: Effect)
    requires s.decision.None? && s.timers == [p, q] && p.at == q.at == 0 && p.round == q.round
    requires var mid := s.(timers := []);
             && Fired(C, mid, 0, p.timer, p.round) == Effect(mid, []) && Rests(mid, 0)
             && fired == Fired(C, mid, 0, q.timer, q.round) && Rests(fired.node, 0)
    ensures Ticked(C, s, 0, fired.node, fired.acts)
  {
    DueTwo(s, p, q);
    BothHandled(s.(timers := []), p, q, fired);
    RestingPass(fired.node, 0);
    assert fired.acts + [] == fired.acts;
  }

  lemma BothHandled(s: Node, p: Pending, q: Pending, fired: Effect)
    requires s.decision.None? && Fired(C, s, 0, p.timer, p.round) == Effect(s, []) && Rests(s, 0)
    requires fired == Fired(C, s, 0, q.timer, q.round) && Rests(fired.node, 0)
    ensures LegalScript(C, s, 0, [p, q], [[NOTHING], [NOTHING]])
    ensures Handled(C, s, 0, [p, q], [[NOTHING], [NOTHING]]) == fired
  {
    var once := [NOTHING];
    OneHandled(s, p, Effect(s, []));
    OneHandled(s, q, fired);
    assert [p][..0] == [] && [p, q][..1] == [p] && [once][..0] == [] && [once, once][..1] == [once];
    assert LegalScript(C, s, 0, [], []) && Handled(C, s, 0, [], []) == Effect(s, []);
    assert LegalScript(C, s, 0, [p], [once]) && Handled(C, s, 0, [p], [once]) == Effect(s, []);
    assert [] + fired.acts == fired.acts;
  }

  lemma OneHandled(s: Node, q: Pending, fired: Effect)
    requires s.decision.None? && fired == Fired(C, s, 0, q.timer, q.round) && Rests(fired.node, 0)
    ensures LegalOne(C, s, 0, q, [NOTHING]) && HandleOne(C, s, 0, q, [NOTHING]) == fired
  {
    RestingPass(fired.node, 0);
    assert fired.acts + [] == fired.acts;
  }

  lemma VotedOk(r: Round, x: Trail)
    requires Before(r, x)
    ensures var y := Voted(r, x);
            && NilBook(y.prevotes) && NilBook(y.precommits) && r in y.precommits
            && StrictlySorted(y.entries) && SentMap(y.entries) == y.sent
            && (r, VoteKind.Prevote) in y.sent && (Timer.Precommit, r) in y.armed && (Timer.Propose, r) in y.armed
  {
    SentGrows(x.entries, Entry(r, VoteKind.Prevote, None));
    SentGrows(x.entries + [Entry(r, VoteKind.Prevote, None)], Entry(r, VoteKind.Precommit, None));
  }

  lemma SentGrows(entries: seq<Entry>, e: Entry)
    requires StrictlySorted(entries) && forall d :: d in entries ==> EntryBefore(d, e)
    ensures StrictlySorted(entries + [e]) && SentMap(entries + [e]) == SentMap(entries)[(e.round, e.kind) := e.ballot]
  {
    assert (entries + [e])[..|entries|] == entries;
  }

  lemma NextIsBefore(r: Round, x: Trail)
    requires Before(r, x) && r < MAX_ROUND
    ensures Before(r + 1, Entered(r + 1, Voted(r, x)))
  {
    VotedOk(r, x);
  }

  lemma EntersNext(r: Round, x: Trail)
    requires Before(r, x) && r < MAX_ROUND
    ensures Fired(C, At(r, Step.Precommit, Voted(r, x), []), 0, Timer.Precommit, r) ==
            Effect(Waiting(r + 1, Entered(r + 1, Voted(r, x))), [Action.Propose(r + 1, None, None)])
  {
    assert [] + [Due(Timer.Propose, r + 1)] == [Due(Timer.Propose, r + 1)];
    OnlyProposer(r + 1);
  }

  lemma OnlyProposer(r: Round)
    ensures Proposer(C, r) == 0
  {
  }

  lemma EntersLastAgain(x: Trail)
    requires Before(MAX_ROUND, x)
    ensures Fired(C, At(MAX_ROUND, Step.Precommit, Voted(MAX_ROUND, x), []), 0, Timer.Precommit, MAX_ROUND) ==
            Effect(Again(x), [])
  {
    VotedOk(MAX_ROUND, x);
  }

  lemma NextTick(r: Round, x: Trail)
    requires Before(r, x) && r < MAX_ROUND
    ensures Ticked(C, Done(r, x), 0, Waiting(r + 1, Entered(r + 1, Voted(r, x))), [Action.Propose(r + 1, None, None)])
  {
    VotedOk(r, x);
    NextIsBefore(r, x);
    EntersNext(r, x);
    PrecommitRests(r, Voted(r, x), []);
    ProposeRests(r + 1, Entered(r + 1, Voted(r, x)), [Due(Timer.Propose, r + 1)], 0);
    SecondDue(Done(r, x), Due(Timer.Prevote, r), Due(Timer.Precommit, r),
              Effect(Waiting(r + 1, Entered(r + 1, Voted(r, x))), [Action.Propose(r + 1, None, None)]));
  }

  lemma LastTick(x: Trail)
    requires Before(MAX_ROUND, x)
    ensures Ticked(C, Done(MAX_ROUND, x), 0, Again(x), [])
  {
    VotedOk(MAX_ROUND, x);
    EntersLastAgain(x);
    PrecommitRests(MAX_ROUND, Voted(MAX_ROUND, x), []);
    ProposeRests(MAX_ROUND, Voted(MAX_ROUND, x), [], 0);
    SecondDue(Done(MAX_ROUND, x), Due(Timer.Prevote, MAX_ROUND), Due(Timer.Precommit, MAX_ROUND),
              Effect(Again(x), []));
  }

  /** Without a timer, a tick is a pass that changes nothing. */
  lemma IdleTick(s: Node, now: U64)
    requires s.timers == [] && Rests(s, now)
    ensures Ticked(C, s, now, s, [])
  {
    RestingPass(s, now);
    assert DueTimers(s, now) == [] && Drained(s, now) == s;
    assert LegalScript(C, s, now, [], []) && Handled(C, s, now, [], []) == Effect(s, []);
  }

  // ----- the run

  const START := Trail(map[], map[], map[], {(Timer.Propose, 0)}, [])
  const FIRST := Sys(map[0 := NEW], map[], History({}, {}, {}, 0))

  lemma AloneIsFine()
    ensures WorldOk(W) && FewFaults(W) && Cfg(W, 0) == C && Init(W, FIRST)
  {
    assert forall i: nat :: i in Below(1) <==> i < 1;
  }

  lemma StartIsBefore()
    ensures Before(0, START)
  {
  }

  lemma FirstStart()
    ensures Started(C, NEW, 0) == Effect(Waiting(0, START), [Action.Propose(0, None, None)])
  {
    assert [] + [Due(Timer.Propose, 0)] == [Due(Timer.Propose, 0)] && {} + {(Timer.Propose, 0)} == {(Timer.Propose, 0)};
    OnlyProposer(0);
  }

  lemma Starts()
    ensures Returns(C, NEW, Call.Start(0), Waiting(0, START), [Action.Propose(0, None, None)])
  {
    FirstStart();
    ProposeRests(0, START, [Due(Timer.Propose, 0)], 0);
    RestingPass(Waiting(0, START), 0);
    ReturnsAfter(C, NEW, Call.Start(0), Waiting(0, START), []);
    assert [Action.Propose(0, None, None)] + [] == [Action.Propose(0, None, None)];
  }

  /** The committee after its member made a call. */
  function Said(s: Sys, n: Node, out: seq<Action>, saved: Option<Saved>): Sys {
    Sys(s.nodes[0 := n], if saved.Some? then s.disk[0 := saved.value] else s.disk,
        Grown(s.past, 0, n, out).(offers := s.past.offers))
  }

  /** A call the member makes by itself, and what it writes if it voted. */
  ghost predicate StepBy(s: Node, n: Node, call: Call, out: seq<Action>, saved: Option<Saved>) {
    && (call.Start? || call.Tick?) && Returns(C, s, call, n, out)
    && if saved.Some? then IsSaved(C, n, saved.value) else VotesIn(0, out) == {}
  }

  ghost predicate Steps(s: Node, n: Node) {
    exists call, out, saved :: StepBy(s, n, call, out, saved)
  }

  /** A set of states that holds the first one and all that follow. */
  ghost predicate Closed(reach: Node -> bool) {
    reach(NEW) && forall s, n :: reach(s) && Steps(s, n) ==> reach(n)
  }

  ghost predicate EndsAt(states: seq<Sys>, labels: seq<Label>, n: Node) {
    Run(W, states, labels) && Last(states).nodes == map[0 := n]
  }

  /** The states of the member at the ends of runs. */
  ghost function Reachable(): (reach: Node -> bool)
    ensures forall n :: reach(n) <==> exists states, labels :: EndsAt(states, labels, n)
  {
    n => exists states, labels :: EndsAt(states, labels, n)
  }

  lemma ReachableIsClosed()
    ensures Closed(Reachable())
  {
    AloneIsFine();
    assert EndsAt([FIRST], [], NEW);
    forall s, n | Reachable()(s) && Steps(s, n) ensures Reachable()(n) {
      var states, labels :| EndsAt(states, labels, s);
      var more, acts := Goes(states, labels, s, n);
    }
  }

  lemma Goes(states: seq<Sys>, labels: seq<Label>, s: Node, n: Node) returns (more: seq<Sys>, acts: seq<Label>)
    requires EndsAt(states, labels, s) && Steps(s, n)
    ensures EndsAt(more, acts, n)
  {
    AloneIsFine();
    var call, out, saved :| StepBy(s, n, call, out, saved);
    var t, l := Said(Last(states), n, out, saved), Acts(0, call, out, saved);
    SaidIsNext(Last(states), s, call, n, out, saved);
    RunGoesOn(states, labels, l, t);
    more, acts := states + [t], labels + [l];
  }

  lemma SaidIsNext(s: Sys, m: Node, call: Call, n: Node, out: seq<Action>, saved: Option<Saved>)
    requires s.nodes == map[0 := m] && StepBy(m, n, call, out, saved) && Cfg(W, 0) == C
    ensures Next(W, s, Acts(0, call, out, saved), Said(s, n, out, saved)) && Said(s, n, out, saved).nodes == map[0 := n]
  {
  }

  lemma RunGoesOn(states: seq<Sys>, labels: seq<Label>, l: Label, t: Sys)
    requires Run(W, states, labels) && Next(W, Last(states), l, t)
    ensures Run(W, states + [t], labels + [l])
  {
    assert (states + [t])[..|labels| + 1] == states && (labels + [l])[..|labels|] == labels;
  }

  lemma SavedFits(r: Round, x: Trail)
    requires Before(r, x)
    ensures IsSaved(C, Done(r, x), Saved(0, r, Step.Precommit, None, None, Voted(r, x).entries))
  {
    VotedOk(r, x);
  }

  lemma NoVoteSaid(out: seq<Action>)
    requires forall a :: a in out ==> a.Propose?
    ensures VotesIn(0, out) == {}
  {
  }

  lemma VotesNow(r: Round, x: Trail)
    requires Before(r, x)
    ensures Steps(Waiting(r, x), Done(r, x))
  {
    VotingTick(r, x);
    SavedFits(r, x);
    TickIsStep(Waiting(r, x), Done(r, x), Votes(r), Some(Saved(0, r, Step.Precommit, None, None, Voted(r, x).entries)));
  }

  lemma TickIsStep(s: Node, n: Node, out: seq<Action>, saved: Option<Saved>)
    requires if saved.Some? then IsSaved(C, n, saved.value) else VotesIn(0, out) == {}
    ensures Ticked(C, s, 0, n, out) ==> Steps(s, n)
  {
    if Ticked(C, s, 0, n, out) {
      assert StepBy(s, n, Call.Tick(0), out, saved);
    }
  }

  lemma MovesOn(r: Round, x: Trail)
    requires Before(r, x) && r < MAX_ROUND
    ensures Steps(Done(r, x), Waiting(r + 1, Entered(r + 1, Voted(r, x))))
  {
    NextTick(r, x);
    NoVoteSaid([Action.Propose(r + 1, None, None)]);
    TickIsStep(Done(r, x), Waiting(r + 1, Entered(r + 1, Voted(r, x))), [Action.Propose(r + 1, None, None)], None);
  }

  lemma MovesBack(x: Trail)
    requires Before(MAX_ROUND, x)
    ensures Steps(Done(MAX_ROUND, x), Again(x))
  {
    LastTick(x);
    NoVoteSaid([]);
    TickIsStep(Done(MAX_ROUND, x), Again(x), [], None);
  }

  lemma FirstRound()
    ensures Steps(NEW, Waiting(0, START))
  {
    Starts();
    NoVoteSaid([Action.Propose(0, None, None)]);
    assert StepBy(NEW, Waiting(0, START), Call.Start(0), [Action.Propose(0, None, None)], None);
  }

  /** What is behind the node when it comes to a round. */
  function TrailTo(r: Round): Trail
    decreases r
  {
    if r == 0 then START else Entered(r, Voted(r - 1, TrailTo(r - 1)))
  }

  lemma TrailGrows(r: Round)
    requires r < MAX_ROUND && Before(r, TrailTo(r))
    ensures Before(r + 1, TrailTo(r + 1))
  {
    NextIsBefore(r, TrailTo(r));
  }

  lemma {:induction false} TrailIsBefore(r: Round)
    ensures Before(r, TrailTo(r))
    decreases r
  {
    RoundInduction((q: Round) => Before(q, TrailTo(q)), r) by {
      StartIsBefore();
      forall q: Round | q < MAX_ROUND && Before(q, TrailTo(q)) ensures Before(q + 1, TrailTo(q + 1)) {
        TrailGrows(q);
      }
    }
  }

  /** What holds of round 0, and of each round after one of which it holds, holds of all. */
  lemma {:induction false} RoundInduction(p: Round -> bool, r: Round)
    requires p(0) && forall q: Round :: q < MAX_ROUND && p(q) ==> p(q + 1)
    ensures p(r)
    decreases r
  {
    if r > 0 {
      RoundInduction(p, r - 1);
    }
  }

  lemma Follows(reach: Node -> bool, s: Node, n: Node)
    requires Closed(reach) && reach(s)
    ensures Steps(s, n) ==> reach(n)
  {
  }

  lemma NextRoundFollows(reach: Node -> bool, r: Round)
    requires Closed(reach) && r < MAX_ROUND && reach(Waiting(r, TrailTo(r)))
    ensures reach(Waiting(r + 1, TrailTo(r + 1)))
  {
    TrailIsBefore(r);
    VotesNow(r, TrailTo(r));
    Follows(reach, Waiting(r, TrailTo(r)), Done(r, TrailTo(r)));
    MovesOn(r, TrailTo(r));
    Follows(reach, Done(r, TrailTo(r)), Waiting(r + 1, TrailTo(r + 1)));
  }

  lemma FirstRoundFollows(reach: Node -> bool)
    requires Closed(reach)
    ensures reach(Waiting(0, TrailTo(0)))
  {
    FirstRound();
    Follows(reach, NEW, Waiting(0, START));
  }

  /** Every round of the counter follows from the start. */
  lemma EveryRoundFollows(reach: Node -> bool, r: Round)
    requires Closed(reach)
    ensures reach(Waiting(r, TrailTo(r)))
  {
    RoundInduction((q: Round) => reach(Waiting(q, TrailTo(q))), r) by {
      FirstRoundFollows(reach);
      forall q: Round | q < MAX_ROUND && reach(Waiting(q, TrailTo(q))) ensures reach(Waiting(q + 1, TrailTo(q + 1))) {
        NextRoundFollows(reach, q);
      }
    }
  }

  lemma EndFollows(reach: Node -> bool)
    requires Closed(reach)
    ensures reach(Again(TrailTo(MAX_ROUND)))
  {
    var x := TrailTo(MAX_ROUND);
    TrailIsBefore(MAX_ROUND);
    EveryRoundFollows(reach, MAX_ROUND);
    VotesNow(MAX_ROUND, x);
    Follows(reach, Waiting(MAX_ROUND, x), Done(MAX_ROUND, x));
    MovesBack(x);
    Follows(reach, Done(MAX_ROUND, x), Again(x));
  }

  /** A node that waits for a proposal it has voted on already, without any timer, and stays so
      whatever time it is told. */
  ghost predicate Stopped(c: Config, s: Node) {
    && Active(c, s) && s.decision.None? && s.step.Propose? && s.timers == []
    && (s.round, VoteKind.Prevote) in s.sent && (s.round, VoteKind.Precommit) in s.sent
    && forall now: U64 :: Returns(c, s, Call.Tick(now), s, [])
  }

  /** A run without faults, at the end of which the node has stopped in the last round. */
  lemma LastRoundStops() returns (states: seq<Sys>, labels: seq<Label>)
    ensures Run(W, states, labels) && W.faulty == {} && 0 in Last(states).nodes
    ensures Last(states).nodes[0].round == MAX_ROUND && Stopped(Cfg(W, 0), Last(states).nodes[0])
  {
    AloneIsFine();
    ReachableIsClosed();
    EndFollows(Reachable());
    TrailIsBefore(MAX_ROUND);
    IsStopped(TrailTo(MAX_ROUND));
    states, labels :| EndsAt(states, labels, Again(TrailTo(MAX_ROUND)));
  }

  lemma IsStopped(x: Trail)
    requires Before(MAX_ROUND, x)
    ensures Stopped(C, Again(x))
  {
    var s := Again(x);
    VotedOk(MAX_ROUND, x);
    forall now: U64 ensures Returns(C, s, Call.Tick(now), s, []) {
      ProposeRests(MAX_ROUND, Voted(MAX_ROUND, x), [], now);
      IdleTick(s, now);
    }
  }
}

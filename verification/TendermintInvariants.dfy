/**
 What every public call keeps, whatever arrives: the node's own votes, the order of its lock
 and valid rounds, and the timers it is waiting for.
 */
module TendermintInvariants {
  import opened Common
  import opened TendermintState

  // ----- the invariant of a node's votes and rounds

  type Sent = map<(Round, VoteKind), Ballot>

  predicate Prevoted(sent: Sent, r: Round) {
    (r, VoteKind.Prevote) in sent
  }

  predicate Precommitted(sent: Sent, r: Round) {
    (r, VoteKind.Precommit) in sent
  }

  /** The locked round never passes the valid round, nor the valid round the current one; and
      a node that has not prevoted in its round holds only older ones. */
  predicate Ordered(s: Node) {
    && (s.locked.Some? ==>
          s.valid.Some? && s.locked.value.round <= s.valid.value.round)
    && (s.valid.Some? ==>
          && s.valid.value.round <= s.round
          && (!Prevoted(s.sent, s.round) ==> s.valid.value.round < s.round))
  }

  ghost predicate SentOrdered(sent: Sent, round: Round) {
    && (forall k :: k in sent ==> k.0 <= round)
    && (forall r: Round :: (r, VoteKind.Precommit) in sent ==> (r, VoteKind.Prevote) in sent)
  }

  /** What the step says about the votes of the current round. The last round cannot be left,
      so it can be entered again with its votes already sent. */
  predicate StepMatchesVotes(s: Node) {
    && (!s.step.Propose? ==> Prevoted(s.sent, s.round))
    && (s.step.Precommit? ==> Precommitted(s.sent, s.round))
    && (s.round < MAX_ROUND ==>
          && (s.step.Propose? ==> !Prevoted(s.sent, s.round))
          && (!s.step.Precommit? ==> !Precommitted(s.sent, s.round) && s.round !in s.polkaDone))
  }

  /** The node's own row of a book is exactly what it sent. */
  ghost predicate OwnRow(me: nat, book: Book, kind: VoteKind, sent: Sent) {
    forall r: Round :: Ballots(book, r, me) == if (r, kind) in sent then [sent[(r, kind)]] else []
  }

  ghost predicate OwnRows(me: nat, s: Node) {
    OwnRow(me, s.prevotes, VoteKind.Prevote, s.sent) && OwnRow(me, s.precommits, VoteKind.Precommit, s.sent)
  }

  ghost predicate Inv(c: Config, s: Node) {
    && BookOk(s.prevotes) && BookOk(s.precommits)
    && Ordered(s) && SentOrdered(s.sent, s.round)
    && (forall r :: r in s.polkaDone ==> r <= s.round)
    && (s.started || s.resumed || s.step.Propose?)
    && (c.me.Some? ==> c.me.value < c.n && StepMatchesVotes(s) && OwnRows(c.me.value, s))
  }

  lemma NewInv(c: Config)
    requires c.me.Some? ==> c.me.value < c.n
    ensures Inv(c, NEW)
  {
  }

  lemma CastKeeps(c: Config, s: Node, kind: VoteKind, ballot: Ballot, step: Step)
    requires Inv(c, s) && c.me.Some? && s.started
    requires kind.Prevote? ==> s.step.Propose? && step.Prevote?
    requires kind.Precommit? ==> s.step.Prevote? && step.Precommit?
    ensures Inv(c, CastAndStep(c, s, kind, ballot, step).node)
  {
    if (s.round, kind) !in s.sent {
      CastBooks(c, s, kind, ballot, step);
    }
  }

  lemma CastBooks(c: Config, s: Node, kind: VoteKind, ballot: Ballot, step: Step)
    requires c.me.Some? && OwnRows(c.me.value, s) && BookOk(s.prevotes) && BookOk(s.precommits)
    requires (s.round, kind) !in s.sent
    ensures var t := CastAndStep(c, s, kind, ballot, step).node;
            && t.sent == s.sent[(s.round, kind) := ballot]
            && OwnRows(c.me.value, t) && BookOk(t.prevotes) && BookOk(t.precommits)
  {
    RecordKeepsBookOk(BookOf(s, kind), s.round, c.me.value, ballot);
    OwnRowAfterCast(c.me.value, s.prevotes, VoteKind.Prevote, s.sent, s.round, kind, ballot);
    OwnRowAfterCast(c.me.value, s.precommits, VoteKind.Precommit, s.sent, s.round, kind, ballot);
  }

  lemma OwnRowAfterCast(me: nat, book: Book, kind: VoteKind, sent: Sent, round: Round, cast: VoteKind, ballot: Ballot)
    requires OwnRow(me, book, kind, sent) && (round, cast) !in sent
    ensures OwnRow(me, if kind == cast then Record(book, round, me, ballot) else book, kind,
                   sent[(round, cast) := ballot])
  {
    assert Ballots(book, round, me) == if (round, kind) in sent then [sent[(round, kind)]] else [];
  }

  lemma StartRoundKeeps(c: Config, s: Node, now: U64, r: Round)
    requires Inv(c, s)
    requires r > s.round || (r == s.round && (r == MAX_ROUND || s.step.Propose?))
    ensures Inv(c, StartRound(c, s, now, r).node)
  {
  }

  lemma PolkaKeeps(c: Config, s: Node, v: ValueId)
    requires Inv(c, s) && c.me.Some? && s.started && !s.step.Propose?
    ensures Inv(c, HandlePolka(c, s, v).node)
  {
    var at := Some(RoundValue(s.round, v));
    if s.step.Prevote? {
      var entered := CastAndStep(c, s, VoteKind.Precommit, Some(v), Step.Precommit).node;
      CastKeeps(c, s, VoteKind.Precommit, Some(v), Step.Precommit);
      var t := HandlePolka(c, s, v).node;
      assert t == entered.(locked := at, valid := at, polkaDone := s.polkaDone + {s.round});
    }
  }

  lemma IterationKeeps(c: Config, s: Node, now: U64, pick: Pick)
    requires Inv(c, s)
    ensures Inv(c, Iteration(c, s, now, pick).node)
  {
    if s.decision.None? && pick.decision.Some? {
    } else if s.decision.Some? || c.me.None? || !s.started || c.n == 0 {
    } else if SkipTarget(c, s).Some? {
      StartRoundKeeps(c, s, now, SkipTarget(c, s).value);
    } else if Verdict(c, s).Some? {
      CastKeeps(c, s, VoteKind.Prevote, Verdict(c, s).value, Step.Prevote);
    } else {
      ArmKeeps(c, s, Timer.Prevote, s.round, now);
      WeighingKeeps(c, PrevoteArmed(c, s, now), now, pick.polka);
    }
  }

  lemma ArmKeeps(c: Config, s: Node, timer: Timer, round: Round, now: U64)
    requires Inv(c, s)
    ensures Inv(c, Arm(c, s, timer, round, now))
  {
  }

  lemma WeighingKeeps(c: Config, s: Node, now: U64, polka: Option<ValueId>)
    requires Inv(c, s) && c.me.Some? && s.started
    ensures Inv(c, Weighed(c, s, now, polka).node)
  {
    var t := Weighed(c, s, now, polka).node;
    if !s.step.Propose? && s.round !in s.polkaDone && polka.Some? && Acceptable(s, polka.value) {
      PolkaKeeps(c, s, polka.value);
    } else if s.step.Prevote? && HasQuorum(c, s.prevotes, s.round, None) {
      CastKeeps(c, s, VoteKind.Precommit, None, Step.Precommit);
    } else {
      ArmKeeps(c, s, Timer.Precommit, s.round, now);
    }
  }

  lemma FiredKeeps(c: Config, s: Node, now: U64, timer: Timer, round: Round)
    requires Inv(c, s) && c.me.Some? && s.started
    ensures Inv(c, Fired(c, s, now, timer, round).node)
  {
    if s.round == round {
      match timer
      case Propose => if s.step.Propose? { CastKeeps(c, s, VoteKind.Prevote, None, Step.Prevote); }
      case Prevote => if s.step.Prevote? { CastKeeps(c, s, VoteKind.Precommit, None, Step.Precommit); }
      case Precommit => StartRoundKeeps(c, s, now, NextRound(round));
    }
  }

  /** Everything the invariant looks at is the same. */
  predicate SameVotes(s: Node, t: Node) {
    && t.round == s.round && t.step == s.step && t.locked == s.locked && t.valid == s.valid
    && t.prevotes == s.prevotes && t.precommits == s.precommits && t.sent == s.sent
    && t.polkaDone == s.polkaDone && (s.started ==> t.started) && (s.resumed ==> t.resumed)
  }

  lemma HeardKeeps(c: Config, s: Node, kind: VoteKind, round: Round, from: nat, ballot: Ballot)
    requires Inv(c, s)
    ensures Inv(c, Heard(c, s, kind, round, from, ballot))
  {
    var noted := NoteRound(s, from, round);
    assert SameVotes(s, noted) && Inv(c, noted);
    if from < c.n && Some(from) != c.me && InWindow(s, round) {
      RecordedKeeps(c, noted, kind, round, from, ballot);
    }
  }

  lemma RecordedKeeps(c: Config, s: Node, kind: VoteKind, round: Round, from: nat, ballot: Ballot)
    requires Inv(c, s) && Some(from) != c.me
    ensures Inv(c, Recorded(s, kind, round, from, ballot))
  {
    RecordKeepsBookOk(BookOf(s, kind), round, from, ballot);
    if c.me.Some? {
      assert forall r: Round ::
        Ballots(Record(BookOf(s, kind), round, from, ballot), r, c.me.value) == Ballots(BookOf(s, kind), r, c.me.value);
    }
  }

  lemma FirstEffectKeeps(c: Config, s: Node, call: Call)
    requires Inv(c, s) && !call.Tick? && !call.Carry? && !(call.Start? && s.started)
    ensures Inv(c, FirstEffect(c, s, call).node)
  {
    match call
    case Start(now) =>
      var u := s.(started := true);
      assert SameVotes(s, u) && Inv(c, u);
      if c.me.Some? && (!s.resumed || s.step.Propose?) {
        StartRoundKeeps(c, u, now, s.round);
      }
    case OnProposal(_, round, from, value, pol, ok) =>
      assert SameVotes(s, FirstEffect(c, s, call).node);
    case OnValue(_, value, ok) =>
      assert SameVotes(s, FirstEffect(c, s, call).node);
    case OnVote(_, kind, round, from, ballot) =>
      HeardKeeps(c, s, kind, round, from, ballot);
  }

  // ----- timers

  /** A committee member that has been started. */
  predicate Active(c: Config, s: Node) {
    s.started && c.me.Some? && c.n > 0
  }

  ghost predicate Waits(list: seq<Pending>, timer: Timer, round: Round) {
    exists p :: p in list && p.timer == timer && p.round == round
  }

  ghost predicate WaitsIn(s: Node, due: seq<Pending>, timer: Timer) {
    Waits(s.timers, timer, s.round) || Waits(due, timer, s.round)
  }

  /** The timers of the current round that a node may still need are pending, either in the
      node or in the list of due timers a `tick` has yet to handle. */
  ghost predicate RoundTimers(s: Node, due: seq<Pending>) {
    && (s.step.Propose? ==> WaitsIn(s, due, Timer.Propose))
    && ((Timer.Prevote, s.round) in s.armed ==>
          !s.step.Propose? && (s.step.Prevote? ==> WaitsIn(s, due, Timer.Prevote)))
    && ((Timer.Precommit, s.round) in s.armed ==> WaitsIn(s, due, Timer.Precommit))
  }

  ghost predicate ClockOk(c: Config, s: Node, due: seq<Pending>) {
    && (forall p :: p in s.timers || p in due ==> (p.timer, p.round) in s.armed)
    && (forall k :: k in s.armed ==> Active(c, s) && k.1 <= s.round)
    && (Active(c, s) && s.decision.None? && s.round < MAX_ROUND ==> RoundTimers(s, due))
  }

  /** No timer is lost: a node that waits for something has a timer pending for it. */
  ghost predicate NoLostTimer(c: Config, s: Node) {
    Active(c, s) && s.decision.None? && s.round < MAX_ROUND ==>
      && (s.step.Propose? ==> Waits(s.timers, Timer.Propose, s.round))
      && (s.step.Prevote? && |Row(s.prevotes, s.round)| >= Quorum(c.n) ==>
            Waits(s.timers, Timer.Prevote, s.round))
      && (|Row(s.precommits, s.round)| >= Quorum(c.n) ==> Waits(s.timers, Timer.Precommit, s.round))
  }

  lemma ArmClock(c: Config, s: Node, timer: Timer, now: U64, due: seq<Pending>)
    requires ClockOk(c, s, due) && Active(c, s)
    requires timer.Prevote? ==> !s.step.Propose?
    ensures ClockOk(c, Arm(c, s, timer, s.round, now), due)
  {
    var t := Arm(c, s, timer, s.round, now);
    if (timer, s.round) !in s.armed {
      var p := Pending(timer, s.round, SatAdd(now, TimeoutOf(c.timeouts, timer, s.round)));
      assert t.timers == s.timers + [p] && p in t.timers;
      assert forall q :: q in s.timers ==> q in t.timers;
    }
  }

  lemma EnterClock(c: Config, s: Node, now: U64, r: Round, due: seq<Pending>)
    requires Active(c, s) && s.round <= r
    requires forall p :: p in s.timers || p in due ==> (p.timer, p.round) in s.armed
    requires forall k :: k in s.armed ==> k.1 < r || (r == MAX_ROUND && k.1 == r)
    ensures ClockOk(c, StartRound(c, s, now, r).node, due)
  {
    var t := StartRound(c, s, now, r).node;
    var p := Pending(Timer.Propose, r, SatAdd(now, TimeoutOf(c.timeouts, Timer.Propose, r)));
    if r < MAX_ROUND {
      assert t.timers == s.timers + [p] && p in t.timers;
    }
  }

  lemma CastClock(c: Config, s: Node, kind: VoteKind, ballot: Ballot, step: Step, due: seq<Pending>, rest: seq<Pending>)
    requires ClockOk(c, s, due) && Active(c, s)
    requires kind.Prevote? ==> s.step.Propose? && step.Prevote?
    requires kind.Precommit? ==> s.step.Prevote? && step.Precommit?
    requires forall p :: p in rest ==> p in due
    requires forall p :: p in due && p !in rest && p.round == s.round ==>
                           !p.timer.Precommit? && (p.timer.Prevote? ==> kind.Precommit?)
    ensures ClockOk(c, CastAndStep(c, s, kind, ballot, step).node, rest)
  {
  }

  lemma IterationClock(c: Config, s: Node, now: U64, pick: Pick, due: seq<Pending>)
    requires ClockOk(c, s, due)
    ensures ClockOk(c, Iteration(c, s, now, pick).node, due)
    ensures !Iteration(c, s, now, pick).again && due == [] ==> NoLostTimer(c, Iteration(c, s, now, pick).node)
  {
    if s.decision.None? && pick.decision.Some? {
    } else if s.decision.Some? || c.me.None? || !s.started || c.n == 0 {
    } else if SkipTarget(c, s).Some? {
      EnterClock(c, s, now, SkipTarget(c, s).value, due);
    } else if Verdict(c, s).Some? {
      CastClock(c, s, VoteKind.Prevote, Verdict(c, s).value, Step.Prevote, due, due);
    } else {
      if s.step.Prevote? {
        ArmClock(c, s, Timer.Prevote, now, due);
      }
      WeighingClock(c, PrevoteArmed(c, s, now), now, pick.polka, due);
    }
  }

  lemma PolkaClock(c: Config, s: Node, v: ValueId, due: seq<Pending>)
    requires ClockOk(c, s, due) && Active(c, s) && !s.step.Propose?
    ensures ClockOk(c, HandlePolka(c, s, v).node, due)
  {
    var t := HandlePolka(c, s, v).node;
    assert t.timers == s.timers && t.armed == s.armed && t.round == s.round && t.decision == s.decision;
  }

  lemma WeighingClock(c: Config, s: Node, now: U64, polka: Option<ValueId>, due: seq<Pending>)
    requires ClockOk(c, s, due) && Active(c, s)
    requires s.step.Prevote? && |Row(s.prevotes, s.round)| >= Quorum(c.n) ==> (Timer.Prevote, s.round) in s.armed
    ensures ClockOk(c, Weighed(c, s, now, polka).node, due)
    ensures !Weighed(c, s, now, polka).again && due == [] ==> NoLostTimer(c, Weighed(c, s, now, polka).node)
  {
    if !s.step.Propose? && s.round !in s.polkaDone && polka.Some? && Acceptable(s, polka.value) {
      PolkaClock(c, s, polka.value, due);
    } else if s.step.Prevote? && HasQuorum(c, s.prevotes, s.round, None) {
      CastClock(c, s, VoteKind.Precommit, None, Step.Precommit, due, due);
    } else {
      RestingClock(c, s, now, due);
    }
  }

  /** The pass that ends the loop arms the precommit timer, if it is due. */
  lemma RestingClock(c: Config, s: Node, now: U64, due: seq<Pending>)
    requires ClockOk(c, s, due) && Active(c, s)
    requires s.step.Prevote? && |Row(s.prevotes, s.round)| >= Quorum(c.n) ==> (Timer.Prevote, s.round) in s.armed
    ensures var t := if |Row(s.precommits, s.round)| >= Quorum(c.n)
                     then Arm(c, s, Timer.Precommit, s.round, now) else s;
            ClockOk(c, t, due) && (due == [] ==> NoLostTimer(c, t))
  {
    if |Row(s.precommits, s.round)| >= Quorum(c.n) {
      ArmClock(c, s, Timer.Precommit, now, due);
    }
  }

  lemma FiredClock(c: Config, s: Node, now: U64, due: seq<Pending>)
    requires due != [] && ClockOk(c, s, due) && s.decision.None?
    ensures ClockOk(c, Fired(c, s, now, due[0].timer, due[0].round).node, due[1..])
    ensures Active(c, s)
  {
    var p, rest := due[0], due[1..];
    assert due == [p] + rest && p in due;
    if s.round == p.round {
      match p.timer
      case Propose =>
        if s.step.Propose? { CastClock(c, s, VoteKind.Prevote, None, Step.Prevote, due, rest); }
      case Prevote =>
        if s.step.Prevote? { CastClock(c, s, VoteKind.Precommit, None, Step.Precommit, due, rest); }
      case Precommit =>
        EnterClock(c, s, now, NextRound(p.round), rest);
    }
  }

  lemma StartClock(c: Config, s: Node, now: U64)
    requires ClockOk(c, s, []) && !s.started
    ensures ClockOk(c, Started(c, s, now).node, [])
  {
    var u := s.(started := true);
    assert s.armed == {} by { assert forall k :: k in s.armed ==> Active(c, s); }
    if c.me.Some? && c.n > 0 {
      if !s.resumed || s.step.Propose? {
        EnterClock(c, u, now, s.round, []);
      } else {
        assert ClockOk(c, u, []);
        ArmClock(c, u, if s.step.Prevote? then Timer.Prevote else Timer.Precommit, now, []);
      }
    }
  }

  lemma FirstEffectClock(c: Config, s: Node, call: Call)
    requires ClockOk(c, s, [])
    requires !call.Tick? && !call.Carry? && !(call.Start? && s.started)
    ensures ClockOk(c, FirstEffect(c, s, call).node, [])
  {
    if call.Start? {
      StartClock(c, s, call.now);
    }
  }

  // ----- whole calls

  ghost predicate Good(c: Config, s: Node, due: seq<Pending>) {
    Inv(c, s) && ClockOk(c, s, due)
  }

  lemma {:induction false} AfterGood(c: Config, s: Node, now: U64, picks: seq<Pick>, due: seq<Pending>)
    requires Good(c, s, due) && Legal(c, s, now, picks)
    ensures Good(c, After(c, s, now, picks).node, due)
    ensures !After(c, s, now, picks).again && due == [] ==> NoLostTimer(c, After(c, s, now, picks).node)
  {
    if picks != [] {
      var k := |picks| - 1;
      AfterGood(c, s, now, picks[..k], due);
      var before := After(c, s, now, picks[..k]).node;
      IterationKeeps(c, before, now, picks[k]);
      IterationClock(c, before, now, picks[k], due);
    }
  }

  lemma {:induction false} HandledGood(
    c: Config, s: Node, now: U64, due: seq<Pending>, script: seq<seq<Pick>>, rest: seq<Pending>)
    requires |script| == |due|
    requires Good(c, s, due + rest) && LegalScript(c, s, now, due, script)
    ensures Good(c, Handled(c, s, now, due, script).node, rest)
  {
    if due == [] {
      assert due + rest == rest;
    } else {
      var k := |due| - 1;
      assert due[..k] + ([due[k]] + rest) == due + rest;
      HandledGood(c, s, now, due[..k], script[..k], [due[k]] + rest);
      HandleOneGood(c, Handled(c, s, now, due[..k], script[..k]).node, now, due[k], script[k], rest);
    }
  }

  lemma HandleOneGood(c: Config, s: Node, now: U64, p: Pending, picks: seq<Pick>, rest: seq<Pending>)
    requires Good(c, s, [p] + rest) && LegalOne(c, s, now, p, picks)
    ensures Good(c, HandleOne(c, s, now, p, picks).node, rest)
  {
    if s.decision.None? {
      assert ([p] + rest)[1..] == rest;
      FiredClock(c, s, now, [p] + rest);
      FiredKeeps(c, s, now, p.timer, p.round);
      AfterGood(c, Fired(c, s, now, p.timer, p.round).node, now, picks, rest);
    }
  }

  lemma {:induction false} SplitTimers(timers: seq<Pending>, now: U64, p: Pending)
    ensures p in timers <==> p in DueOnly(timers, now) || p in LaterOnly(timers, now)
  {
    if timers != [] {
      SplitTimers(timers[..|timers| - 1], now, p);
      assert timers == timers[..|timers| - 1] + [timers[|timers| - 1]];
    }
  }

  lemma {:induction false} InsertMember(sorted: seq<Pending>, q: Pending, p: Pending)
    ensures p in Insert(sorted, q) <==> p in sorted || p == q
  {
    if sorted != [] {
      InsertMember(sorted[..|sorted| - 1], q, p);
      assert sorted == sorted[..|sorted| - 1] + [sorted[|sorted| - 1]];
    }
  }

  lemma {:induction false} SortedMember(timers: seq<Pending>, p: Pending)
    ensures p in ByDeadline(timers) <==> p in timers
  {
    if timers != [] {
      SortedMember(timers[..|timers| - 1], p);
      InsertMember(ByDeadline(timers[..|timers| - 1]), timers[|timers| - 1], p);
      assert timers == timers[..|timers| - 1] + [timers[|timers| - 1]];
    }
  }

  lemma DrainGood(c: Config, s: Node, now: U64)
    requires Good(c, s, [])
    ensures Good(c, Drained(s, now), DueTimers(s, now))
  {
    var t, due := Drained(s, now), DueTimers(s, now);
    forall p: Pending ensures p in s.timers <==> p in due || p in t.timers {
      SplitTimers(s.timers, now, p);
      SortedMember(DueOnly(s.timers, now), p);
    }
    assert forall timer, r :: Waits(s.timers, timer, r) ==> Waits(t.timers, timer, r) || Waits(due, timer, r);
  }

  /** No public call loses a timer or breaks the votes: it holds after the call if it did before. */
  lemma CallKeepsTimers(c: Config, s: Node, call: Call, t: Node, out: seq<Action>)
    requires Good(c, s, []) && NoLostTimer(c, s) && Returns(c, s, call, t, out)
    ensures Good(c, t, []) && NoLostTimer(c, t)
  {
    match call
    case Carry(_) => CarryKeepsTimers(c, s, t);
    case Tick(now) => TickKeepsTimers(c, s, now, t, out);
    case _ =>
      if !(call.Start? && s.started) {
        FirstKeepsTimers(c, s, call);
        var first := FirstEffect(c, s, call);
        var rest: seq<Action> :| Progressed(c, first.node, call.now, t, rest) && out == first.acts + rest;
        ProgressGood(c, first.node, call.now, t, rest);
      }
  }

  lemma CarryKeepsTimers(c: Config, s: Node, t: Node)
    requires Good(c, s, []) && NoLostTimer(c, s) && t == s.(carried := t.carried)
    ensures Good(c, t, []) && NoLostTimer(c, t)
  {
  }

  lemma FirstKeepsTimers(c: Config, s: Node, call: Call)
    requires Good(c, s, []) && !call.Tick? && !call.Carry? && !(call.Start? && s.started)
    ensures Good(c, FirstEffect(c, s, call).node, [])
  {
    FirstEffectKeeps(c, s, call);
    FirstEffectClock(c, s, call);
  }

  lemma TickKeepsTimers(c: Config, s: Node, now: U64, t: Node, out: seq<Action>)
    requires Good(c, s, []) && Ticked(c, s, now, t, out)
    ensures Good(c, t, []) && NoLostTimer(c, t)
  {
    var due := DueTimers(s, now);
    var script: seq<seq<Pick>>, rest: seq<Action> :|
      && |script| == |due| && LegalScript(c, Drained(s, now), now, due, script)
      && Progressed(c, Handled(c, Drained(s, now), now, due, script).node, now, t, rest);
    DrainGood(c, s, now);
    assert due + [] == due;
    HandledGood(c, Drained(s, now), now, due, script, []);
    ProgressGood(c, Handled(c, Drained(s, now), now, due, script).node, now, t, rest);
  }

  lemma ProgressGood(c: Config, s: Node, now: U64, t: Node, out: seq<Action>)
    requires Good(c, s, []) && Progressed(c, s, now, t, out)
    ensures Good(c, t, []) && NoLostTimer(c, t)
  {
    var picks :| Legal(c, s, now, picks) && After(c, s, now, picks) == Turn(t, out, false);
    AfterGood(c, s, now, picks, []);
  }

  // ----- a call leaves nothing undone

  /** Nothing is left for `progress` to do. */
  ghost predicate Rested(c: Config, s: Node) {
    s.decision.None? ==>
      && FoundDecision(c, s, None)
      && (Active(c, s) ==>
            && Verdict(c, s).None?
            && (!s.step.Propose? && s.round !in s.polkaDone ==>
                  exists p :: FoundPolka(c, s, p) && (p.Some? ==> !Acceptable(s, p.value))))
  }

  lemma LastPassRests(c: Config, s: Node, now: U64, pick: Pick)
    requires PickOk(c, s, pick) && !Iteration(c, s, now, pick).again
    ensures Rested(c, Iteration(c, s, now, pick).node)
  {
    var t := Iteration(c, s, now, pick).node;
    if t.decision.None? {
      assert pick.decision.None?;
      if Active(c, s) {
        WeighingIsLast(c, PrevoteArmed(c, s, now), now, pick.polka);
      }
      StillNothing(c, s, t);
      if Active(c, s) && !t.step.Propose? && t.round !in t.polkaDone {
        assert FoundPolka(c, t, pick.polka) by { assert FoundPolka(c, s, pick.polka); }
      }
    }
  }

  lemma StillNothing(c: Config, s: Node, t: Node)
    requires FoundDecision(c, s, None)
    requires t.precommits == s.precommits && t.validity == s.validity && t.carried == s.carried
    ensures FoundDecision(c, t, None)
  {
    forall r: Round | r in t.precommits ensures MayPass(c, t, r) {
      assert MayPass(c, s, r);
    }
  }

  lemma WeighingIsLast(c: Config, s: Node, now: U64, polka: Option<ValueId>)
    requires Verdict(c, s).None? && !Weighed(c, s, now, polka).again
    ensures var t := Weighed(c, s, now, polka).node;
            && SamePlace(s, t) && t.step == s.step && t.prevotes == s.prevotes && t.precommits == s.precommits
            && t.locked == s.locked && Verdict(c, t).None?
    ensures !s.step.Propose? && s.round !in s.polkaDone && polka.Some? ==> !Acceptable(s, polka.value)
  {
  }

  lemma ProgressRests(c: Config, s: Node, now: U64, t: Node, out: seq<Action>)
    requires Progressed(c, s, now, t, out)
    ensures Rested(c, t)
  {
    var picks :| Legal(c, s, now, picks) && After(c, s, now, picks) == Turn(t, out, false);
    var k := |picks| - 1;
    LastPassRests(c, After(c, s, now, picks[..k]).node, now, picks[k]);
  }

  lemma CallRests(c: Config, s: Node, call: Call, t: Node, out: seq<Action>)
    requires Returns(c, s, call, t, out) && (s.started ==> Rested(c, s))
    ensures t.started ==> Rested(c, t)
  {
    match call
    case Carry(_) =>
    case Tick(now) =>
      var script: seq<seq<Pick>>, rest: seq<Action> :|
        && |script| == |DueTimers(s, now)|
        && Progressed(c, Handled(c, Drained(s, now), now, DueTimers(s, now), script).node, now, t, rest);
      ProgressRests(c, Handled(c, Drained(s, now), now, DueTimers(s, now), script).node, now, t, rest);
    case _ =>
      if !(call.Start? && s.started) {
        var first := FirstEffect(c, s, call);
        var rest: seq<Action> :| Progressed(c, first.node, call.now, t, rest) && out == first.acts + rest;
        ProgressRests(c, first.node, call.now, t, rest);
      }
  }

  // ----- saving and restoring

  lemma {:induction false} SentMapKeys(entries: seq<Entry>, k: (Round, VoteKind))
    requires k in SentMap(entries)
    ensures exists i :: 0 <= i < |entries| && (entries[i].round, entries[i].kind) == k &&
                        entries[i].ballot == SentMap(entries)[k]
  {
    var last := |entries| - 1;
    if (entries[last].round, entries[last].kind) != k {
      SentMapKeys(entries[..last], k);
    }
  }

  /** Two sorted vote lists with the same votes are the same list. */
  lemma {:induction false} SortedEntriesUnique(a: seq<Entry>, b: seq<Entry>)
    requires StrictlySorted(a) && StrictlySorted(b) && SentMap(a) == SentMap(b)
    ensures a == b
  {
    NoVotesSent(a);
    NoVotesSent(b);
    if a != [] && b != [] {
      var x, y := a[|a| - 1], b[|b| - 1];
      var a', b' := a[..|a| - 1], b[..|b| - 1];
      SentMapKeys(b, (x.round, x.kind));
      SentMapKeys(a, (y.round, y.kind));
      assert x == y;
      LastKeyIsNew(a);
      LastKeyIsNew(b);
      assert SentMap(a') == SentMap(a) - {(x.round, x.kind)};
      assert SentMap(b') == SentMap(b) - {(x.round, x.kind)};
      SortedEntriesUnique(a', b');
      assert a == a' + [x] && b == b' + [x];
    }
  }

  lemma NoVotesSent(entries: seq<Entry>)
    ensures SentMap(entries) == map[] <==> entries == []
  {
    if entries != [] {
      var e := entries[|entries| - 1];
      assert (e.round, e.kind) in SentMap(entries);
    }
  }

  lemma LastKeyIsNew(entries: seq<Entry>)
    requires entries != [] && StrictlySorted(entries)
    ensures var e := entries[|entries| - 1]; (e.round, e.kind) !in SentMap(entries[..|entries| - 1])
  {
    var e := entries[|entries| - 1];
    if (e.round, e.kind) in SentMap(entries[..|entries| - 1]) {
      SentMapKeys(entries[..|entries| - 1], (e.round, e.kind));
    }
  }

  /** Restoring into a fresh node and saving again gives back the saved state, exactly when
      the saved votes are listed in order without repetition, as `saved` itself lists them. */
  lemma RestoreThenSave(c: Config, saved: Saved, again: Saved)
    requires saved.height == c.height
    requires IsSaved(c, Restored(c, NEW, saved), again)
    ensures again == saved <==> StrictlySorted(saved.sent)
  {
    var base := NEW.(round := saved.round, step := saved.step, locked := saved.locked, valid := saved.valid);
    ReplayedFields(c, base, saved.sent);
    if StrictlySorted(saved.sent) {
      SortedEntriesUnique(again.sent, saved.sent);
    }
  }

  lemma {:induction false} ReplayedFields(c: Config, s: Node, entries: seq<Entry>)
    requires s.sent == map[]
    ensures var t := Replayed(c, s, entries);
            && t.sent == SentMap(entries)
            && SamePlace(s, t) && t.step == s.step && t.locked == s.locked
            && t.timers == s.timers && t.armed == s.armed
  {
    if entries != [] {
      ReplayedFields(c, s, entries[..|entries| - 1]);
    }
  }

  predicate OnlyFrom(me: Option<nat>, book: Book) {
    forall r, w :: r in book && w in book[r] ==> Some(w) == me
  }

  lemma {:induction false} ReplayedRows(c: Config, s: Node, entries: seq<Entry>)
    requires s.sent == map[] && s.prevotes == map[] && s.precommits == map[]
    requires StrictlySorted(entries)
    ensures var t := Replayed(c, s, entries);
            && BookOk(t.prevotes) && BookOk(t.precommits)
            && (c.me.Some? ==> OwnRows(c.me.value, t))
            && OnlyFrom(c.me, t.prevotes) && OnlyFrom(c.me, t.precommits)
  {
    if entries != [] {
      var k := |entries| - 1;
      var e := entries[k];
      var before := Replayed(c, s, entries[..k]);
      ReplayedRows(c, s, entries[..k]);
      ReplayedFields(c, s, entries[..k]);
      LastKeyIsNew(entries);
      if c.me.Some? {
        ReplayOneRows(c, before, e);
      }
    }
  }

  lemma ReplayOneRows(c: Config, s: Node, e: Entry)
    requires c.me.Some? && OwnRows(c.me.value, s) && BookOk(s.prevotes) && BookOk(s.precommits)
    requires OnlyFrom(c.me, s.prevotes) && OnlyFrom(c.me, s.precommits) && (e.round, e.kind) !in s.sent
    ensures var t := ReplayOne(c, s, e);
            && BookOk(t.prevotes) && BookOk(t.precommits) && OwnRows(c.me.value, t)
            && OnlyFrom(c.me, t.prevotes) && OnlyFrom(c.me, t.precommits)
  {
    assert OnlyFrom(c.me, Record(BookOf(s, e.kind), e.round, c.me.value, e.ballot));
    RecordKeepsBookOk(BookOf(s, e.kind), e.round, c.me.value, e.ballot);
    OwnRowAfterCast(c.me.value, s.prevotes, VoteKind.Prevote, s.sent, e.round, e.kind, e.ballot);
    OwnRowAfterCast(c.me.value, s.precommits, VoteKind.Precommit, s.sent, e.round, e.kind, e.ballot);
  }

  /** A node restored from what another incarnation saved is as good as that one was. */
  lemma RestoredGood(c: Config, s: Node, saved: Saved)
    requires Inv(c, s) && IsSaved(c, s, saved)
    ensures var t := Restored(c, NEW, saved);
            && Good(c, t, []) && NoLostTimer(c, t)
            && t.round == s.round && t.step == s.step && t.locked == s.locked && t.valid == s.valid && t.sent == s.sent
  {
    var base := NEW.(round := saved.round, step := saved.step, locked := saved.locked, valid := saved.valid);
    ReplayedFields(c, base, saved.sent);
    ReplayedRows(c, base, saved.sent);
  }
}

/**
 What a correct node's state rests on, on every run: a decision on precommits the node still
 holds, and every round that was left behind on a precommit a correct member cast in it.
 */
module TendermintEvidence {
  import opened Common
  import opened TendermintState
  import opened TendermintInvariants
  import opened TendermintNetwork
  import opened TendermintSafety
  import opened TendermintRounds

  /** A correct member precommitted in this round. */
  ghost predicate SomePrecommit(h: History, r: Round) {
    exists x :: x in h.votes && x.kind.Precommit? && x.round == r
  }

  ghost predicate TimersEarned(h: History, armed: set<(Timer, Round)>) {
    forall k :: k in armed && k.0.Precommit? ==> SomePrecommit(h, k.1)
  }

  /** The precommits that made the node decide are still in its book. */
  predicate DecisionHeld(n: nat, s: Node) {
    s.decision.Some? ==>
      |Voters(s.precommits, s.decision.value.round, Some(s.decision.value.value))| >= Quorum(n)
  }

  ghost predicate Evident(n: nat, h: History, s: Node) {
    TimersEarned(h, s.armed) && DecisionHeld(n, s)
  }

  lemma EvidentGrows(n: nat, h: History, h': History, s: Node)
    requires Evident(n, h, s) && h.votes <= h'.votes
    ensures Evident(n, h', s)
  {
    forall k | k in s.armed && k.0.Precommit? ensures SomePrecommit(h', k.1) {
      var x :| x in h.votes && x.kind.Precommit? && x.round == k.1;
    }
  }

  /** Among a quorum of precommitters one is correct. */
  lemma RowHasCorrect(w: World, h: History, book: Book, r: Round)
    requires WorldOk(w) && FewFaults(w) && BookOk(book) && HonestBook(w, h, VoteKind.Precommit, book)
    requires |Row(book, r)| >= Quorum(w.n)
    ensures SomePrecommit(h, r)
  {
    var who := Row(book, r).Keys;
    if who <= w.faulty {
      SubsetSize(who, w.faulty);
    }
    var q :| q in who && q !in w.faulty;
    var b := book[r][q][0];
    assert b in Ballots(book, r, q);
    assert q in Below(w.n);
    assert SignedVote(q, VoteKind.Precommit, r, b) in h.votes;
  }

  // ----- one pass

  lemma ArmEvident(n: nat, h: History, c: Config, s: Node, timer: Timer, now: U64)
    requires Evident(n, h, s) && (timer.Precommit? ==> SomePrecommit(h, s.round))
    ensures Evident(n, h, Arm(c, s, timer, s.round, now))
  {
  }

  lemma WeighingEvident(w: World, h: History, p: nat, s: Node, now: U64, polka: Option<ValueId>)
    requires WorldOk(w) && FewFaults(w) && NodeOk(w, h, p, s) && Evident(w.n, h, s) && s.decision.None?
    ensures Evident(w.n, h, Weighed(Cfg(w, p), s, now, polka).node)
  {
    var c := Cfg(w, p);
    if !s.step.Propose? && s.round !in s.polkaDone && polka.Some? && Acceptable(s, polka.value) {
    } else if s.step.Prevote? && HasQuorum(c, s.prevotes, s.round, None) {
    } else if |Row(s.precommits, s.round)| >= Quorum(c.n) {
      RowHasCorrect(w, h, s.precommits, s.round);
      ArmEvident(w.n, h, c, s, Timer.Precommit, now);
    }
  }

  lemma PassEvident(w: World, h: History, p: nat, s: Node, now: U64, pick: Pick)
    requires WorldOk(w) && FewFaults(w) && NodeOk(w, h, p, s) && PickOk(Cfg(w, p), s, pick) && Evident(w.n, h, s)
    ensures Evident(w.n, h, Iteration(Cfg(w, p), s, now, pick).node)
  {
    var c := Cfg(w, p);
    if (s.decision.None? && pick.decision.Some?) || s.decision.Some? || c.me.None? || !s.started || c.n == 0 {
    } else if SkipTarget(c, s).Some? {
      EnterEvident(w.n, h, c, s, now, SkipTarget(c, s).value);
    } else if Verdict(c, s).Some? {
    } else {
      ArmStep(w, h, p, s, Timer.Prevote, now);
      ArmEvident(w.n, h, c, s, Timer.Prevote, now);
      WeighingEvident(w, h, p, PrevoteArmed(c, s, now), now, pick.polka);
    }
  }

  lemma EnterEvident(n: nat, h: History, c: Config, s: Node, now: U64, r: Round)
    requires Evident(n, h, s)
    ensures Evident(n, h, StartRound(c, s, now, r).node)
  {
    ArmEvident(n, h, c, s.(round := r, step := Step.Propose), Timer.Propose, now);
  }

  // ----- whole calls

  lemma {:induction false} AfterEvident(w: World, h: History, p: nat, s: Node, now: U64, picks: seq<Pick>)
    requires WorldOk(w) && FewFaults(w) && HistoryOk(w, h) && NodeOk(w, h, p, s) && p in w.nodes
    requires Legal(Cfg(w, p), s, now, picks) && Evident(w.n, h, s)
    ensures var x := After(Cfg(w, p), s, now, picks); Evident(w.n, Grown(h, p, x.node, x.acts), x.node)
  {
    if picks == [] {
      EvidentGrows(w.n, h, Grown(h, p, s, []), s);
    } else {
      var k := |picks| - 1;
      AfterEvident(w, h, p, s, now, picks[..k]);
      AfterKept(w, h, p, s, now, picks[..k]);
      var before := After(Cfg(w, p), s, now, picks[..k]);
      var last := Iteration(Cfg(w, p), before.node, now, picks[k]);
      PassEvident(w, Grown(h, p, before.node, before.acts), p, before.node, now, picks[k]);
      VotesInBoth(h, p, before.node, before.acts, last.node, last.acts);
      EvidentGrows(w.n, Grown(h, p, before.node, before.acts),
                   Grown(h, p, last.node, before.acts + last.acts), last.node);
    }
  }

  lemma VotesInBoth(h: History, p: nat, m: Node, a: seq<Action>, t: Node, b: seq<Action>)
    ensures Grown(h, p, m, a).votes <= Grown(h, p, t, a + b).votes
  {
    assert VotesIn(p, a + b) == VotesIn(p, a) + VotesIn(p, b);
  }

  lemma ProgressEvident(w: World, h: History, p: nat, m: Node, a: seq<Action>, now: U64, t: Node, rest: seq<Action>)
    requires WorldOk(w) && FewFaults(w) && p in w.nodes && Progressed(Cfg(w, p), m, now, t, rest)
    requires var h' := Grown(h, p, m, a); HistoryOk(w, h') && NodeOk(w, h', p, m) && Evident(w.n, h', m)
    ensures Evident(w.n, Grown(h, p, t, a + rest), t)
  {
    var picks :| Legal(Cfg(w, p), m, now, picks) && After(Cfg(w, p), m, now, picks) == Turn(t, rest, false);
    AfterEvident(w, Grown(h, p, m, a), p, m, now, picks);
    assert VotesIn(p, a + rest) == VotesIn(p, a) + VotesIn(p, rest);
    EvidentGrows(w.n, Grown(Grown(h, p, m, a), p, t, rest), Grown(h, p, t, a + rest), t);
  }

  lemma FiredEvident(w: World, h: History, p: nat, s: Node, now: U64, due: Pending)
    requires Evident(w.n, h, s) && s.decision.None?
    ensures var x := Fired(Cfg(w, p), s, now, due.timer, due.round); Evident(w.n, Grown(h, p, x.node, x.acts), x.node)
  {
    var x := Fired(Cfg(w, p), s, now, due.timer, due.round);
    if s.round == due.round && due.timer.Precommit? {
      EnterEvident(w.n, h, Cfg(w, p), s, now, NextRound(due.round));
    }
    EvidentGrows(w.n, h, Grown(h, p, x.node, x.acts), x.node);
  }

  lemma HandleOneEvident(w: World, h: History, p: nat, s: Node, now: U64, due: Pending, picks: seq<Pick>)
    requires WorldOk(w) && FewFaults(w) && HistoryOk(w, h) && NodeOk(w, h, p, s) && p in w.nodes
    requires Active(Cfg(w, p), s) && LegalOne(Cfg(w, p), s, now, due, picks) && Evident(w.n, h, s)
    ensures var x := HandleOne(Cfg(w, p), s, now, due, picks); Evident(w.n, Grown(h, p, x.node, x.acts), x.node)
  {
    var c := Cfg(w, p);
    if s.decision.Some? {
      EvidentGrows(w.n, h, Grown(h, p, s, []), s);
    } else {
      var fired := Fired(c, s, now, due.timer, due.round);
      FiredStep(w, h, p, s, now, due.timer, due.round);
      FiredEvident(w, h, p, s, now, due);
      var after := After(c, fired.node, now, picks);
      assert Progressed(c, fired.node, now, after.node, after.acts);
      ProgressEvident(w, h, p, fired.node, fired.acts, now, after.node, after.acts);
    }
  }

  lemma {:induction false} HandledEvident(
    w: World, h: History, p: nat, s: Node, now: U64, due: seq<Pending>, script: seq<seq<Pick>>, rest: seq<Pending>)
    requires WorldOk(w) && FewFaults(w) && HistoryOk(w, h) && NodeOk(w, h, p, s) && p in w.nodes
    requires |script| == |due| && LegalScript(Cfg(w, p), s, now, due, script)
    requires ClockOk(Cfg(w, p), s, due + rest) && Evident(w.n, h, s)
    ensures var x := Handled(Cfg(w, p), s, now, due, script); Evident(w.n, Grown(h, p, x.node, x.acts), x.node)
  {
    if due == [] {
      EvidentGrows(w.n, h, Grown(h, p, s, []), s);
    } else {
      var k := |due| - 1;
      Regroup(due, rest);
      HandledEvident(w, h, p, s, now, due[..k], script[..k], [due[k]] + rest);
      HandledKept(w, h, p, s, now, due[..k], script[..k], [due[k]] + rest);
      HandledStaysActive(Cfg(w, p), s, now, due[..k], script[..k], due[k], rest);
      OneMoreEvident(w, h, p, s, now, due, script);
    }
  }

  lemma OneMoreEvident(w: World, h: History, p: nat, s: Node, now: U64, due: seq<Pending>, script: seq<seq<Pick>>)
    requires WorldOk(w) && FewFaults(w) && p in w.nodes && |script| == |due| && due != []
    requires LegalScript(Cfg(w, p), s, now, due, script)
    requires var x := Handled(Cfg(w, p), s, now, due[..|due| - 1], script[..|due| - 1]);
             && Active(Cfg(w, p), x.node) && Kept(w, h, p, s, x.node, x.acts)
             && Evident(w.n, Grown(h, p, x.node, x.acts), x.node)
    ensures var x := Handled(Cfg(w, p), s, now, due, script); Evident(w.n, Grown(h, p, x.node, x.acts), x.node)
  {
    var k := |due| - 1;
    var before := Handled(Cfg(w, p), s, now, due[..k], script[..k]);
    var last := HandleOne(Cfg(w, p), before.node, now, due[k], script[k]);
    HandleOneEvident(w, Grown(h, p, before.node, before.acts), p, before.node, now, due[k], script[k]);
    assert VotesIn(p, before.acts + last.acts) == VotesIn(p, before.acts) + VotesIn(p, last.acts);
    EvidentGrows(w.n, Grown(Grown(h, p, before.node, before.acts), p, last.node, last.acts),
                 Grown(h, p, last.node, before.acts + last.acts), last.node);
  }

  lemma StartEvident(w: World, h: History, p: nat, s: Node, now: U64)
    requires NodeOk(w, h, p, s) && Evident(w.n, h, s) && !s.started
    ensures Evident(w.n, h, Started(Cfg(w, p), s, now).node)
  {
    var c, u := Cfg(w, p), s.(started := true);
    if c.me.None? || c.n == 0 {
    } else if !s.resumed || s.step.Propose? {
      EnterEvident(w.n, h, c, u, now, s.round);
    } else if s.step.Prevote? {
      ArmEvident(w.n, h, c, u, Timer.Prevote, now);
    } else {
      var k := (s.round, VoteKind.Precommit);
      assert SignedVote(p, k.1, k.0, s.sent[k]) in h.votes;
      ArmEvident(w.n, h, c, u, Timer.Precommit, now);
    }
  }

  lemma VotersStay(book: Book, round: Round, from: nat, ballot: Ballot, r: Round, b: Ballot)
    ensures |Voters(book, r, b)| <= |Voters(Record(book, round, from, ballot), r, b)|
  {
    SubsetSize(Voters(book, r, b), Voters(Record(book, round, from, ballot), r, b));
  }

  lemma HeardEvident(n: nat, h: History, c: Config, s: Node, kind: VoteKind, round: Round, from: nat, ballot: Ballot)
    requires Evident(n, h, s)
    ensures Evident(n, h, Heard(c, s, kind, round, from, ballot))
  {
    var t := Heard(c, s, kind, round, from, ballot);
    HeardChanges(c, s, kind, round, from, ballot);
    if s.decision.Some? {
      VotersStay(s.precommits, round, from, ballot, s.decision.value.round, Some(s.decision.value.value));
    }
  }

  lemma FirstEvident(w: World, h: History, p: nat, s: Node, call: Call)
    requires NodeOk(w, h, p, s) && Evident(w.n, h, s) && !call.Tick? && !call.Carry? && !(call.Start? && s.started)
    ensures var x := FirstEffect(Cfg(w, p), s, call); Evident(w.n, Grown(h, p, x.node, x.acts), x.node)
  {
    var x := FirstEffect(Cfg(w, p), s, call);
    match call {
      case Start(now) => StartEvident(w, h, p, s, now);
      case OnVote(_, kind, round, from, ballot) => HeardEvident(w.n, h, Cfg(w, p), s, kind, round, from, ballot);
      case _ =>
    }
    EvidentGrows(w.n, h, Grown(h, p, x.node, x.acts), x.node);
  }

  lemma TickEvident(w: World, h: History, p: nat, s: Node, now: U64, t: Node, out: seq<Action>)
    requires WorldOk(w) && FewFaults(w) && HistoryOk(w, h) && Sound(w, h, p, s) && p in w.nodes
    requires Ticked(Cfg(w, p), s, now, t, out) && Evident(w.n, h, s)
    ensures Evident(w.n, Grown(h, p, t, out), t)
  {
    var c := Cfg(w, p);
    var due := DueTimers(s, now);
    var script: seq<seq<Pick>>, rest: seq<Action> :|
      && |script| == |due| && LegalScript(c, Drained(s, now), now, due, script)
      && Progressed(c, Handled(c, Drained(s, now), now, due, script).node, now, t, rest)
      && out == Handled(c, Drained(s, now), now, due, script).acts + rest;
    var mid := Handled(c, Drained(s, now), now, due, script);
    DueEvident(w, h, p, s, now, script);
    ProgressEvident(w, h, p, mid.node, mid.acts, now, t, rest);
  }

  lemma DueEvident(w: World, h: History, p: nat, s: Node, now: U64, script: seq<seq<Pick>>)
    requires WorldOk(w) && FewFaults(w) && HistoryOk(w, h) && Sound(w, h, p, s) && p in w.nodes && Evident(w.n, h, s)
    requires |script| == |DueTimers(s, now)|
    requires LegalScript(Cfg(w, p), Drained(s, now), now, DueTimers(s, now), script)
    ensures var x := Handled(Cfg(w, p), Drained(s, now), now, DueTimers(s, now), script);
            var h' := Grown(h, p, x.node, x.acts);
            HistoryOk(w, h') && NodeOk(w, h', p, x.node) && Evident(w.n, h', x.node)
  {
    var due := DueTimers(s, now);
    DrainGood(Cfg(w, p), s, now);
    NodeOkCongruent(w, h, p, s, Drained(s, now));
    assert due + [] == due;
    HandledKept(w, h, p, Drained(s, now), now, due, script, []);
    HandledEvident(w, h, p, Drained(s, now), now, due, script, []);
  }

  lemma CallEvident(w: World, h: History, p: nat, s: Node, call: Call, t: Node, out: seq<Action>)
    requires WorldOk(w) && FewFaults(w) && HistoryOk(w, h) && Sound(w, h, p, s) && p in w.nodes
    requires Authentic(w, h, call) && Returns(Cfg(w, p), s, call, t, out) && Evident(w.n, h, s)
    ensures Evident(w.n, Grown(h, p, t, out), t)
  {
    match call
    case Carry(_) => EvidentGrows(w.n, h, Grown(h, p, t, out), t);
    case Tick(now) => TickEvident(w, h, p, s, now, t, out);
    case _ =>
      if call.Start? && s.started {
        EvidentGrows(w.n, h, Grown(h, p, t, out), t);
      } else {
        var first := FirstEffect(Cfg(w, p), s, call);
        var rest: seq<Action> :| Progressed(Cfg(w, p), first.node, call.now, t, rest) && out == first.acts + rest;
        FirstEffectStep(w, h, p, s, call);
        FirstEvident(w, h, p, s, call);
        ProgressEvident(w, h, p, first.node, first.acts, call.now, t, rest);
      }
  }

  // ----- whole runs

  /** Every round behind the furthest one a correct node reached has seen a correct precommit. */
  ghost predicate RoundsEarned(h: History) {
    forall r: Round :: r < h.reached ==> SomePrecommit(h, r)
  }

  ghost predicate SysEvident(w: World, s: Sys) {
    RoundsEarned(s.past) && forall p :: p in w.nodes ==> p in s.nodes && Evident(w.n, s.past, s.nodes[p])
  }

  lemma NodesEvident(w: World, s: Sys, l: Label, t: Sys, p: nat)
    requires FewFaults(w) && SysOk(w, s) && SysEvident(w, s) && Next(w, s, l, t) && l.Acts? && p in w.nodes
    ensures p in t.nodes && Evident(w.n, t.past, t.nodes[p])
  {
    CallFrame(w, s, l, t);
    assert Evident(w.n, s.past, s.nodes[p]);
    if p == l.p {
      assert Sound(w, s.past, p, s.nodes[p]);
      CallEvident(w, s.past, p, s.nodes[p], l.call, t.nodes[p], l.out);
      EvidentGrows(w.n, Grown(s.past, p, t.nodes[p], l.out), t.past, t.nodes[p]);
    } else {
      EvidentGrows(w.n, s.past, t.past, s.nodes[p]);
    }
  }

  lemma EarnedGrows(h: History, h': History)
    requires RoundsEarned(h) && h.votes <= h'.votes && h'.reached <= h.reached + 1
    requires h'.reached > h.reached ==> SomePrecommit(h, h.reached)
    ensures RoundsEarned(h')
  {
    forall r: Round | r < h'.reached ensures SomePrecommit(h', r) {
      assert SomePrecommit(h, r);
      var x :| x in h.votes && x.kind.Precommit? && x.round == r;
    }
  }

  /** Who waits for a precommit timer has heard a correct precommit of that round. */
  lemma TimerIsEarned(w: World, h: History, p: nat, s: Node, q: Pending)
    requires ClockOk(Cfg(w, p), s, []) && Evident(w.n, h, s) && q in s.timers && q.timer.Precommit?
    ensures SomePrecommit(h, q.round)
  {
    assert (q.timer, q.round) in s.armed;
  }

  lemma RoundsStayEarned(w: World, s: Sys, l: Label, t: Sys)
    requires WorldOk(w) && FewFaults(w) && HistoryOk(w, s.past) && Next(w, s, l, t) && l.Acts?
    requires Sound(w, s.past, l.p, s.nodes[l.p]) && Evident(w.n, s.past, s.nodes[l.p]) && RoundsEarned(s.past)
    ensures RoundsEarned(t.past)
  {
    NextRounds(w, s, l, t);
    if t.past.reached > s.past.reached {
      var q :| q in s.nodes[l.p].timers && q.timer.Precommit? && q.round == s.past.reached;
      TimerIsEarned(w, s.past, l.p, s.nodes[l.p], q);
    }
    CallFrame(w, s, l, t);
    EarnedGrows(s.past, t.past);
  }

  lemma RebirthEvident(w: World, disk: map<nat, Saved>, p: nat, h: History)
    ensures Evident(w.n, h, Rebirth(w, disk, p))
  {
    if p in disk {
      var saved := disk[p];
      var base := NEW.(round := saved.round, step := saved.step, locked := saved.locked, valid := saved.valid);
      ReplayedFields(Cfg(w, p), base, saved.sent);
    }
  }

  lemma ActEvident(w: World, s: Sys, l: Label, t: Sys)
    requires FewFaults(w) && SysOk(w, s) && SysEvident(w, s) && Next(w, s, l, t) && l.Acts?
    ensures SysEvident(w, t)
  {
    assert Sound(w, s.past, l.p, s.nodes[l.p]);
    RoundsStayEarned(w, s, l, t);
    forall p | p in w.nodes ensures p in t.nodes && Evident(w.n, t.past, t.nodes[p]) {
      NodesEvident(w, s, l, t, p);
    }
  }

  lemma RestartEvident(w: World, s: Sys, l: Label, t: Sys)
    requires SysEvident(w, s) && Next(w, s, l, t) && l.Restarts?
    ensures SysEvident(w, t)
  {
    RestartFrame(w, s, l, t);
    RebirthEvident(w, s.disk, l.p, t.past);
  }

  lemma NextEvident(w: World, s: Sys, l: Label, t: Sys)
    requires FewFaults(w) && SysOk(w, s) && SysEvident(w, s) && Next(w, s, l, t)
    ensures SysEvident(w, t)
  {
    if l.Acts? {
      ActEvident(w, s, l, t);
    } else {
      RestartEvident(w, s, l, t);
    }
  }

  lemma {:induction false} RunEvident(w: World, states: seq<Sys>, labels: seq<Label>)
    requires Run(w, states, labels) && FewFaults(w)
    ensures SysOk(w, Last(states)) && SysEvident(w, Last(states))
  {
    RunOk(w, states, labels);
    if labels == [] {
      InitEvident(w, states[0]);
    } else {
      RunPrefix(w, states, labels);
      var k := |labels| - 1;
      RunEvident(w, states[..k + 1], labels[..k]);
      NextEvident(w, states[k], labels[k], Last(states));
    }
  }

  lemma RunPrefix(w: World, states: seq<Sys>, labels: seq<Label>)
    requires Run(w, states, labels) && labels != []
    ensures var k := |labels| - 1;
            && Run(w, states[..k + 1], labels[..k]) && Last(states[..k + 1]) == states[k]
            && Next(w, states[k], labels[k], Last(states))
  {
  }

  lemma InitEvident(w: World, s: Sys)
    requires Init(w, s)
    ensures SysEvident(w, s)
  {
  }

  /** On every run, no correct node is ever past a round in which no correct member precommitted. */
  lemma RoundsAreEarned(w: World, states: seq<Sys>, labels: seq<Label>, r: Round)
    requires Run(w, states, labels) && FewFaults(w) && r < Last(states).past.reached
    ensures SomePrecommit(Last(states).past, r)
  {
    RunEvident(w, states, labels);
  }

  /** On every run, whoever has decided still holds the precommit quorum it decided on. */
  lemma DecisionsAreHeld(w: World, states: seq<Sys>, labels: seq<Label>, p: nat)
    requires Run(w, states, labels) && FewFaults(w) && p in w.nodes
    ensures p in Last(states).nodes && DecisionHeld(w.n, Last(states).nodes[p])
  {
    RunEvident(w, states, labels);
  }
}

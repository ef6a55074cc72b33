/**
 How rounds move: skipping is honest, the committee's furthest round moves one step at a time,
 and the last round of the 32-bit counter is where the guarantees end.
 */
module TendermintRounds {
  import opened Common
  import opened TendermintState
  import opened TendermintInvariants
  import opened TendermintNetwork
  import opened TendermintSafety

  /** `skip_target` is exactly the largest later round that enough other nodes have been seen
      at or beyond. */
  lemma SkipTargetIsLargest(c: Config, s: Node, r: Round)
    ensures SkipTarget(c, s) == Some(r) <==>
            r > s.round && EnoughAhead(c, s.highest, r) && forall x: Round :: x > r ==> !EnoughAhead(c, s.highest, x)
    ensures SkipTarget(c, s).None? <==> forall x: Round :: x > s.round ==> !EnoughAhead(c, s.highest, x)
  {
    if s.round < MAX_ROUND && !EnoughAhead(c, s.highest, s.round + 1) {
      AheadShrinks(c, s.highest, s.round + 1);
    }
  }

  /** With fewer than a third faulty, a round is only skipped to if a correct node has been there. */
  lemma SkipIsHonest(w: World, h: History, p: nat, s: Node) returns (q: nat)
    requires WorldOk(w) && FewFaults(w) && HonestRounds(w, h, s.highest)
    requires SkipTarget(Cfg(w, p), s).Some?
    ensures q in w.nodes && q in s.highest && s.highest[q] >= SkipTarget(Cfg(w, p), s).value
    ensures SkipTarget(Cfg(w, p), s).value <= h.reached
  {
    var c := Cfg(w, p);
    var r := SkipTarget(c, s).value;
    var ahead := Ahead(c, s.highest, r);
    assert 3 * (Quorum(w.n) - 1) <= 2 * w.n;
    if ahead <= w.faulty {
      SubsetSize(ahead, w.faulty);
    }
    q :| q in ahead && q !in w.faulty;
    assert q in Below(w.n);
  }

  /** No further than before, or than a correct node has ever been. */
  predicate StaysBehind(h: History, s: Node, t: Node) {
    s.round <= t.round <= Max(s.round, h.reached) && t.highest == s.highest
  }

  lemma IterationRound(w: World, h: History, p: nat, s: Node, now: U64, pick: Pick)
    requires WorldOk(w) && FewFaults(w) && HonestRounds(w, h, s.highest)
    ensures StaysBehind(h, s, Iteration(Cfg(w, p), s, now, pick).node)
  {
    var c := Cfg(w, p);
    PassRound(c, s, now, pick);
    if SkipTarget(c, s).Some? {
      var q := SkipIsHonest(w, h, p, s);
    }
  }

  /** A pass leaves the round only to skip. */
  lemma PassRound(c: Config, s: Node, now: U64, pick: Pick)
    ensures var t := Iteration(c, s, now, pick).node;
            && t.highest == s.highest
            && (t.round == s.round || (SkipTarget(c, s) == Some(t.round) && t.round > s.round))
  {
    if !((s.decision.None? && pick.decision.Some?) || s.decision.Some? || c.me.None? || !s.started || c.n == 0) {
      BusyPassRound(c, s, now, pick.polka);
    }
  }

  /** The rest of a pass, once it is neither a decision nor idle. */
  lemma BusyPassRound(c: Config, s: Node, now: U64, polka: Option<ValueId>)
    ensures SkipTarget(c, s).Some? ==>
              var x := StartRound(c, s, now, SkipTarget(c, s).value);
              x.node.highest == s.highest && x.node.round == SkipTarget(c, s).value > s.round
    ensures Verdict(c, s).Some? ==>
              var x := CastAndStep(c, s, VoteKind.Prevote, Verdict(c, s).value, Step.Prevote);
              x.node.highest == s.highest && x.node.round == s.round
    ensures var x := Weighed(c, PrevoteArmed(c, s, now), now, polka);
            x.node.highest == s.highest && x.node.round == s.round
  {
  }

  lemma {:induction false} AfterRound(w: World, h: History, p: nat, s: Node, now: U64, picks: seq<Pick>)
    requires WorldOk(w) && FewFaults(w) && HonestRounds(w, h, s.highest)
    ensures StaysBehind(h, s, After(Cfg(w, p), s, now, picks).node)
  {
    if picks != [] {
      var k := |picks| - 1;
      AfterRound(w, h, p, s, now, picks[..k]);
      IterationRound(w, h, p, After(Cfg(w, p), s, now, picks[..k]).node, now, picks[k]);
    }
  }

  lemma ProgressRound(w: World, h: History, p: nat, s: Node, now: U64, t: Node, out: seq<Action>)
    requires WorldOk(w) && FewFaults(w) && HonestRounds(w, h, s.highest) && Progressed(Cfg(w, p), s, now, t, out)
    ensures StaysBehind(h, s, t)
  {
    var picks :| Legal(Cfg(w, p), s, now, picks) && After(Cfg(w, p), s, now, picks) == Turn(t, out, false);
    AfterRound(w, h, p, s, now, picks);
  }

  /** Handling due timers moves the round past the committee only by the node's own precommit
      timeout, and then by one. */
  ghost predicate OneTimeout(h: History, s: Node, due: seq<Pending>, t: Node) {
    && t.highest == s.highest && s.round <= t.round
    && (t.round <= Max(s.round, h.reached) || (t.round == s.round + 1 && Waits(due, Timer.Precommit, s.round)))
  }

  lemma FiredRound(c: Config, s: Node, now: U64, due: Pending)
    ensures var t := Fired(c, s, now, due.timer, due.round).node;
            && t.highest == s.highest
            && (t.round == s.round || (due.timer.Precommit? && due.round == s.round && t.round == s.round + 1))
  {
  }

  lemma {:induction false} HandledRound(
    w: World, h: History, p: nat, s: Node, now: U64, due: seq<Pending>, script: seq<seq<Pick>>)
    requires WorldOk(w) && FewFaults(w) && HonestRounds(w, h, s.highest) && |script| == |due|
    requires forall d :: d in due ==> d.round <= s.round
    ensures OneTimeout(h, s, due, Handled(Cfg(w, p), s, now, due, script).node)
  {
    if due != [] {
      var k := |due| - 1;
      HandledRound(w, h, p, s, now, due[..k], script[..k]);
      var before := Handled(Cfg(w, p), s, now, due[..k], script[..k]).node;
      if before.decision.None? {
        assert due[k] in due;
        var fired := Fired(Cfg(w, p), before, now, due[k].timer, due[k].round).node;
        FiredRound(Cfg(w, p), before, now, due[k]);
        AfterRound(w, h, p, fired, now, script[k]);
      }
    }
  }

  lemma TickRound(w: World, h: History, p: nat, s: Node, now: U64, t: Node, out: seq<Action>)
    requires WorldOk(w) && FewFaults(w) && NodeOk(w, h, p, s) && ClockOk(Cfg(w, p), s, [])
    requires Ticked(Cfg(w, p), s, now, t, out)
    ensures OneTimeout(h, s, DueTimers(s, now), t)
  {
    var c := Cfg(w, p);
    var due := DueTimers(s, now);
    var script: seq<seq<Pick>>, rest: seq<Action> :|
      && |script| == |due| && LegalScript(c, Drained(s, now), now, due, script)
      && Progressed(c, Handled(c, Drained(s, now), now, due, script).node, now, t, rest);
    DrainGood(c, s, now);
    HandledRound(w, h, p, Drained(s, now), now, due, script);
    ProgressRound(w, h, p, Handled(c, Drained(s, now), now, due, script).node, now, t, rest);
  }

  lemma {:induction false} DueIsPending(timers: seq<Pending>, now: U64, p: Pending)
    requires p in DueOnly(timers, now)
    ensures p in timers && p.at <= now
  {
    if timers[|timers| - 1].at > now || p != timers[|timers| - 1] {
      DueIsPending(timers[..|timers| - 1], now, p);
    }
  }

  /** The furthest round of any correct node only ever advances by one, when a correct node
      that is there sees its own precommit timer run out. */
  lemma RoundsAdvanceByOne(w: World, states: seq<Sys>, labels: seq<Label>, l: Label, t: Sys)
    requires Run(w, states, labels) && FewFaults(w) && Next(w, Last(states), l, t)
    ensures t.past.reached <= Last(states).past.reached + 1
    ensures t.past.reached > Last(states).past.reached ==>
              var s := Last(states);
              && l.Acts? && l.call.Tick? && s.nodes[l.p].round == s.past.reached
              && exists p :: p in s.nodes[l.p].timers &&
                             p.timer.Precommit? && p.round == s.past.reached && p.at <= l.call.now
  {
    RunOk(w, states, labels);
    assert Sound(w, Last(states).past, l.p, Last(states).nodes[l.p]);
    NextRounds(w, Last(states), l, t);
  }

  lemma NextRounds(w: World, s: Sys, l: Label, t: Sys)
    requires WorldOk(w) && FewFaults(w) && HistoryOk(w, s.past) && Next(w, s, l, t)
    requires Sound(w, s.past, l.p, s.nodes[l.p])
    ensures t.past.reached <= s.past.reached + 1
    ensures t.past.reached > s.past.reached ==>
              && l.Acts? && l.call.Tick? && s.nodes[l.p].round == s.past.reached
              && exists p :: p in s.nodes[l.p].timers &&
                             p.timer.Precommit? && p.round == s.past.reached && p.at <= l.call.now
  {
    ReachedAfter(w, s, l, t);
    if l.Acts? {
      CallRound(w, s.past, l.p, s.nodes[l.p], l.call, t.nodes[l.p], l.out);
    }
  }

  lemma ReachedAfter(w: World, s: Sys, l: Label, t: Sys)
    requires Next(w, s, l, t)
    ensures t.past.reached == if l.Acts? then Max(s.past.reached, t.nodes[l.p].round) else s.past.reached
  {
  }

  lemma CallRound(w: World, h: History, p: nat, s: Node, call: Call, t: Node, out: seq<Action>)
    requires WorldOk(w) && FewFaults(w) && HistoryOk(w, h) && Sound(w, h, p, s) && p in w.nodes
    requires Authentic(w, h, call) && Returns(Cfg(w, p), s, call, t, out)
    ensures t.round <= h.reached + 1
    ensures t.round > h.reached ==>
              && call.Tick? && s.round == h.reached
              && exists q :: q in s.timers && q.timer.Precommit? && q.round == h.reached && q.at <= call.now
  {
    var c := Cfg(w, p);
    match call
    case Carry(_) =>
    case Tick(now) =>
      TickRound(w, h, p, s, now, t, out);
      if t.round > h.reached {
        var q :| q in DueTimers(s, now) && q.timer == Timer.Precommit && q.round == s.round;
        SortedMember(DueOnly(s.timers, now), q);
        DueIsPending(s.timers, now, q);
      }
    case _ =>
      if !(call.Start? && s.started) {
        PlainCallRound(w, h, p, s, call, t, out);
      }
  }

  lemma PlainCallRound(w: World, h: History, p: nat, s: Node, call: Call, t: Node, out: seq<Action>)
    requires WorldOk(w) && FewFaults(w) && HistoryOk(w, h) && NodeOk(w, h, p, s) && p in w.nodes
    requires Authentic(w, h, call) && Returns(Cfg(w, p), s, call, t, out)
    requires !call.Tick? && !call.Carry? && !(call.Start? && s.started)
    ensures t.round <= h.reached
  {
    var first := FirstEffect(Cfg(w, p), s, call);
    var rest: seq<Action> :| Progressed(Cfg(w, p), first.node, call.now, t, rest) && out == first.acts + rest;
    FirstEffectStep(w, h, p, s, call);
    FirstEffectRound(Cfg(w, p), s, call);
    GrownRounds(w, h, p, first);
    ProgressRound(w, h, p, first.node, call.now, t, rest);
  }

  lemma GrownRounds(w: World, h: History, p: nat, x: Effect)
    requires NodeOk(w, Grown(h, p, x.node, x.acts), p, x.node) && x.node.round <= h.reached
    ensures HonestRounds(w, h, x.node.highest)
  {
  }

  lemma FirstEffectRound(c: Config, s: Node, call: Call)
    requires !call.Tick? && !call.Carry?
    ensures FirstEffect(c, s, call).node.round == s.round
  {
  }

  /** The last round of the counter is entered again when its precommit timer fires: the node
      is back at the first step although it has voted, and no propose timer is pending. */
  lemma LastRoundIsReentered(c: Config, s: Node, now: U64)
    requires Inv(c, s) && Active(c, s) && s.round == MAX_ROUND && !s.step.Propose?
    requires (Timer.Propose, s.round) in s.armed && !Waits(s.timers, Timer.Propose, s.round)
    ensures var t := Fired(c, s, now, Timer.Precommit, MAX_ROUND).node;
            t.round == MAX_ROUND && t.step.Propose? && Prevoted(t.sent, t.round) &&
                !Waits(t.timers, Timer.Propose, t.round)
  {
    assert Prevoted(s.sent, s.round);
  }

  // ----- every timer of a round runs once

  /** Nothing is armed that was armed before. */
  ghost predicate ArmsOnce(s: Node, t: Node) {
    s.armed <= t.armed && forall p :: p in t.timers ==> p in s.timers || (p.timer, p.round) !in s.armed
  }

  lemma ArmsOnceTwice(s: Node, m: Node, t: Node)
    requires ArmsOnce(s, m) && ArmsOnce(m, t)
    ensures ArmsOnce(s, t)
  {
  }

  lemma ArmOnce(c: Config, s: Node, timer: Timer, round: Round, now: U64)
    ensures ArmsOnce(s, Arm(c, s, timer, round, now))
  {
  }

  lemma EnterOnce(c: Config, s: Node, now: U64, round: Round)
    ensures ArmsOnce(s, StartRound(c, s, now, round).node)
  {
    ArmOnce(c, s.(round := round, step := Step.Propose), Timer.Propose, round, now);
  }

  lemma WeighedOnce(c: Config, s: Node, now: U64, polka: Option<ValueId>)
    ensures ArmsOnce(s, Weighed(c, s, now, polka).node)
  {
    ArmOnce(c, s, Timer.Precommit, s.round, now);
  }

  lemma PassOnce(c: Config, s: Node, now: U64, pick: Pick)
    ensures ArmsOnce(s, Iteration(c, s, now, pick).node)
  {
    if (s.decision.None? && pick.decision.Some?) || s.decision.Some? || c.me.None? || !s.started || c.n == 0 {
    } else if SkipTarget(c, s).Some? {
      EnterOnce(c, s, now, SkipTarget(c, s).value);
    } else if Verdict(c, s).Some? {
    } else {
      var armed := PrevoteArmed(c, s, now);
      ArmOnce(c, s, Timer.Prevote, s.round, now);
      WeighedOnce(c, armed, now, pick.polka);
      ArmsOnceTwice(s, armed, Weighed(c, armed, now, pick.polka).node);
    }
  }

  lemma {:induction false} AfterOnce(c: Config, s: Node, now: U64, picks: seq<Pick>)
    ensures ArmsOnce(s, After(c, s, now, picks).node)
  {
    if picks != [] {
      var k := |picks| - 1;
      AfterOnce(c, s, now, picks[..k]);
      PassOnce(c, After(c, s, now, picks[..k]).node, now, picks[k]);
      ArmsOnceTwice(s, After(c, s, now, picks[..k]).node, After(c, s, now, picks).node);
    }
  }

  lemma ProgressOnce(c: Config, s: Node, now: U64, t: Node, out: seq<Action>)
    requires Progressed(c, s, now, t, out)
    ensures ArmsOnce(s, t)
  {
    var picks :| Legal(c, s, now, picks) && After(c, s, now, picks) == Turn(t, out, false);
    AfterOnce(c, s, now, picks);
  }

  lemma HandleOneOnce(c: Config, s: Node, now: U64, due: Pending, picks: seq<Pick>)
    ensures ArmsOnce(s, HandleOne(c, s, now, due, picks).node)
  {
    if s.decision.None? {
      var fired := Fired(c, s, now, due.timer, due.round).node;
      EnterOnce(c, s, now, NextRound(due.round));
      AfterOnce(c, fired, now, picks);
      ArmsOnceTwice(s, fired, After(c, fired, now, picks).node);
    }
  }

  lemma {:induction false} HandledOnce(c: Config, s: Node, now: U64, due: seq<Pending>, script: seq<seq<Pick>>)
    requires |script| == |due|
    ensures ArmsOnce(s, Handled(c, s, now, due, script).node)
  {
    if due != [] {
      var k := |due| - 1;
      var before := Handled(c, s, now, due[..k], script[..k]).node;
      HandledOnce(c, s, now, due[..k], script[..k]);
      HandleOneOnce(c, before, now, due[k], script[k]);
      ArmsOnceTwice(s, before, HandleOne(c, before, now, due[k], script[k]).node);
    }
  }

  lemma TickOnce(c: Config, s: Node, now: U64, t: Node, out: seq<Action>)
    requires Ticked(c, s, now, t, out)
    ensures ArmsOnce(s, t)
  {
    var due, mid := DueTimers(s, now), Drained(s, now);
    var script: seq<seq<Pick>>, rest: seq<Action> :|
      |script| == |due| && Progressed(c, Handled(c, mid, now, due, script).node, now, t, rest);
    forall p | p in mid.timers ensures p in s.timers {
      SplitTimers(s.timers, now, p);
    }
    HandledOnce(c, mid, now, due, script);
    ArmsOnceTwice(s, mid, Handled(c, mid, now, due, script).node);
    ProgressOnce(c, Handled(c, mid, now, due, script).node, now, t, rest);
    ArmsOnceTwice(s, Handled(c, mid, now, due, script).node, t);
  }

  lemma FirstEffectOnce(c: Config, s: Node, call: Call)
    requires !call.Tick? && !call.Carry?
    ensures ArmsOnce(s, FirstEffect(c, s, call).node)
  {
    if call.Start? {
      var u := s.(started := true);
      EnterOnce(c, u, call.now, s.round);
      ArmOnce(c, u, Timer.Prevote, s.round, call.now);
      ArmOnce(c, u, Timer.Precommit, s.round, call.now);
    }
  }

  /** No public call arms a timer of a round again: what it leaves pending was pending, or had
      never been armed. So a timer that has fired is gone for good, also where its round is
      entered again. */
  lemma TimersRunOnce(c: Config, s: Node, call: Call, t: Node, out: seq<Action>)
    requires Returns(c, s, call, t, out)
    ensures ArmsOnce(s, t)
    ensures forall timer, r :: (timer, r) in s.armed && !Waits(s.timers, timer, r) ==> !Waits(t.timers, timer, r)
  {
    match call
    case Carry(_) =>
    case Tick(now) => TickOnce(c, s, now, t, out);
    case _ =>
      if !(call.Start? && s.started) {
        var first := FirstEffect(c, s, call);
        var rest: seq<Action> :| Progressed(c, first.node, call.now, t, rest) && out == first.acts + rest;
        FirstEffectOnce(c, s, call);
        ProgressOnce(c, first.node, call.now, t, rest);
        ArmsOnceTwice(s, first.node, t);
      }
  }
}

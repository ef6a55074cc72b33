/**
 The Tendermint node as the program keeps it: an object whose methods update its fields, loop
 until nothing is left to do, and return the actions to carry out. Every method is proved to
 have exactly the effect the functions of TendermintState describe.
 */
module TendermintEngine {
  import opened Common
  import opened TendermintState

  // ----- counting votes

  function TallyOf(tally: map<ValueId, nat>, v: ValueId): nat {
    if v in tally then tally[v] else 0
  }

  function Backers(row: map<nat, seq<Ballot>>, among: set<nat>, v: ValueId): set<nat> {
    set w | w in among && w in row && Some(v) in row[w]
  }

  /** Some block named by at least `q` voters, if there is one. */
  method QuorumValue(row: map<nat, seq<Ballot>>, q: nat) returns (found: Option<ValueId>)
    requires q > 0
    requires forall w :: w in row ==> Distinct(row[w])
    ensures found.Some? ==> |Backers(row, row.Keys, found.value)| >= q
    ensures found.None? ==> forall v: ValueId :: |Backers(row, row.Keys, v)| < q
  {
    var tally: map<ValueId, nat> := map[];
    var todo := row.Keys;
    while todo != {}
      invariant todo <= row.Keys
      invariant forall v: ValueId :: TallyOf(tally, v) == |Backers(row, row.Keys - todo, v)|
    {
      var w :| w in todo;
      var list := row[w];
      ghost var before := tally;
      for i := 0 to |list|
        invariant forall v: ValueId ::
          TallyOf(tally, v) == TallyOf(before, v) + if Some(v) in list[..i] then 1 else 0
      {
        assert list[..i + 1] == list[..i] + [list[i]];
        if list[i].Some? {
          assert list[i] !in list[..i];
          tally := tally[list[i].value := TallyOf(tally, list[i].value) + 1];
        }
      }
      assert list[..|list|] == list;
      forall v: ValueId
        ensures |Backers(row, row.Keys - (todo - {w}), v)| ==
                |Backers(row, row.Keys - todo, v)| + if Some(v) in list then 1 else 0
      {
        assert Backers(row, row.Keys - (todo - {w}), v) ==
               Backers(row, row.Keys - todo, v) + if Some(v) in list then {w} else {};
      }
      todo := todo - {w};
    }
    assert row.Keys - {} == row.Keys;
    var left := tally.Keys;
    while left != {}
      invariant left <= tally.Keys
      invariant forall v: ValueId :: v in tally && v !in left ==> tally[v] < q
    {
      var v :| v in left;
      if tally[v] >= q {
        return Some(v);
      }
      left := left - {v};
    }
    found := None;
  }

  // ----- the k-th highest round

  function AtLeast(rounds: seq<Round>, x: int): nat {
    if rounds == [] then 0
    else AtLeast(rounds[..|rounds| - 1], x) + if rounds[|rounds| - 1] >= x then 1 else 0
  }

  predicate Descending(rounds: seq<Round>) {
    forall i, j :: 0 <= i < j < |rounds| ==> rounds[i] >= rounds[j]
  }

  function InsertDescending(sorted: seq<Round>, r: Round): (t: seq<Round>)
    requires Descending(sorted)
    ensures Descending(t) && |t| == |sorted| + 1
    ensures forall x: int :: AtLeast(t, x) == AtLeast(sorted, x) + if r >= x then 1 else 0
    ensures t[|t| - 1] == if sorted == [] then r else Min(r, sorted[|sorted| - 1])
  {
    if sorted == [] then
      assert [r][..0] == [];
      [r]
    else
      var last := sorted[|sorted| - 1];
      if last >= r then
        assert (sorted + [r])[..|sorted|] == sorted;
        sorted + [r]
      else
        var t := InsertDescending(sorted[..|sorted| - 1], r);
        assert t[|t| - 1] >= last;
        assert (t + [last])[..|t|] == t;
        t + [last]
  }

  /** The rounds noted so far are exactly those of the other nodes no longer in `todo`. */
  ghost predicate Gathered(c: Config, highest: map<nat, Round>, todo: set<nat>, rounds: seq<Round>) {
    forall x: int :: AtLeast(rounds, x) == |Ahead(c, highest, x) - todo|
  }

  lemma GatherOne(c: Config, highest: map<nat, Round>, todo: set<nat>, rounds: seq<Round>, who: nat)
    requires who in todo && todo <= highest.Keys && Gathered(c, highest, todo, rounds)
    ensures Gathered(c, highest, todo - {who}, if Some(who) != c.me then rounds + [highest[who]] else rounds)
  {
    assert (rounds + [highest[who]])[..|rounds|] == rounds;
    forall x: int
      ensures |Ahead(c, highest, x) - (todo - {who})| ==
              |Ahead(c, highest, x) - todo| + if who in Ahead(c, highest, x) then 1 else 0
    {
      assert Ahead(c, highest, x) - (todo - {who}) ==
             Ahead(c, highest, x) - todo + if who in Ahead(c, highest, x) then {who} else {};
    }
  }

  method RoundsOfOthers(c: Config, highest: map<nat, Round>) returns (rounds: seq<Round>)
    ensures forall x: int :: AtLeast(rounds, x) == |Ahead(c, highest, x)|
  {
    rounds := [];
    var todo := highest.Keys;
    while todo != {}
      invariant todo <= highest.Keys
      invariant Gathered(c, highest, todo, rounds)
    {
      var who :| who in todo;
      GatherOne(c, highest, todo, rounds, who);
      if Some(who) != c.me {
        rounds := rounds + [highest[who]];
      }
      todo := todo - {who};
    }
    GatheredAll(c, highest, rounds);
  }

  lemma GatheredAll(c: Config, highest: map<nat, Round>, rounds: seq<Round>)
    requires Gathered(c, highest, {}, rounds)
    ensures forall x: int :: AtLeast(rounds, x) == |Ahead(c, highest, x)|
  {
    forall x: int ensures AtLeast(rounds, x) == |Ahead(c, highest, x)| {
      assert Ahead(c, highest, x) - {} == Ahead(c, highest, x);
    }
  }

  method SortDescending(rounds: seq<Round>) returns (sorted: seq<Round>)
    ensures Descending(sorted) && |sorted| == |rounds|
    ensures forall x: int :: AtLeast(sorted, x) == AtLeast(rounds, x)
  {
    sorted := [];
    for i := 0 to |rounds|
      invariant Descending(sorted) && |sorted| == i
      invariant forall x: int :: AtLeast(sorted, x) == AtLeast(rounds[..i], x)
    {
      assert rounds[..i + 1][..i] == rounds[..i];
      sorted := InsertDescending(sorted, rounds[i]);
    }
    assert rounds[..|rounds|] == rounds;
  }

  lemma {:induction false} AtLeastInOrder(rounds: seq<Round>, x: int)
    requires Descending(rounds)
    ensures AtLeast(rounds, x) <= |rounds|
    ensures forall i :: 0 <= i < |rounds| ==> (rounds[i] >= x <==> i < AtLeast(rounds, x))
  {
    if rounds != [] {
      AtLeastInOrder(rounds[..|rounds| - 1], x);
    }
  }

  // ----- saved votes in order

  predicate KeyBefore(a: (Round, VoteKind), b: (Round, VoteKind)) {
    a.0 < b.0 || (a.0 == b.0 && a.1.Prevote? && b.1.Precommit?)
  }

  lemma {:induction false} LeastKey(keys: set<(Round, VoteKind)>) returns (k: (Round, VoteKind))
    requires keys != {}
    ensures k in keys && forall j :: j in keys && j != k ==> KeyBefore(k, j)
  {
    k :| k in keys;
    assert keys == keys - {k} + {k};
    if keys != {k} {
      var j := LeastKey(keys - {k});
      if KeyBefore(j, k) { k := j; }
    }
  }

  function Without(sent: map<(Round, VoteKind), Ballot>, todo: set<(Round, VoteKind)>): map<(Round, VoteKind), Ballot> {
    map k | k in sent && k !in todo :: sent[k]
  }

  /** The votes sent, in order of round and then kind. */
  method InOrder(sent: map<(Round, VoteKind), Ballot>) returns (list: seq<Entry>)
    ensures StrictlySorted(list) && SentMap(list) == sent
  {
    list := [];
    var todo := sent.Keys;
    while todo != {}
      invariant todo <= sent.Keys
      invariant StrictlySorted(list)
      invariant SentMap(list) == Without(sent, todo)
      invariant forall e, k :: e in list && k in todo ==> KeyBefore((e.round, e.kind), k)
    {
      ghost var least := LeastKey(todo);
      var k :| k in todo && forall j :: j in todo && j != k ==> KeyBefore(k, j);
      var e := Entry(k.0, k.1, sent[k]);
      assert (list + [e])[..|list|] == list;
      assert Without(sent, todo - {k}) == Without(sent, todo)[k := sent[k]];
      list := list + [e];
      todo := todo - {k};
    }
    assert Without(sent, {}) == sent;
  }

  lemma {:induction false} LeastRound(rounds: set<Round>) returns (r: Round)
    requires rounds != {}
    ensures r in rounds && forall x :: x in rounds ==> r <= x
  {
    r :| r in rounds;
    assert rounds == rounds - {r} + {r};
    if rounds != {r} {
      var x := LeastRound(rounds - {r});
      if x < r { r := x; }
    }
  }

  /** The first round a sorted map walks to. */
  method LeastOf(rounds: set<Round>) returns (r: Round)
    requires rounds != {}
    ensures r in rounds && forall x :: x in rounds ==> r <= x
  {
    ghost var least := LeastRound(rounds);
    r :| r in rounds && forall x :: x in rounds ==> r <= x;
  }

  class Tendermint {
    const height: U64
    const n: nat
    const me: Option<nat>
    const timeouts: Timeouts
    var round: Round
    var step: Step
    var locked: Option<RoundValue>
    var valid: Option<RoundValue>
    var proposals: map<Round, Offer>
    var validity: map<ValueId, bool>
    var prevotes: Book
    var precommits: Book
    var highest: map<nat, Round>
    var sent: map<(Round, VoteKind), Ballot>
    var timers: seq<Pending>
    var armed: set<(Timer, Round)>
    var polkaDone: set<Round>
    var decision: Option<RoundValue>
    var started: bool
    var resumed: bool
    var carried: Option<ValueId>

    function Cfg(): Config {
      Config(height, n, me, timeouts)
    }

    function View(): Node
      reads this
    {
      Node(round, step, locked, valid, proposals, validity, prevotes, precommits, highest, sent,
           timers, armed, polkaDone, decision, started, resumed, carried)
    }

    ghost predicate Valid()
      reads this
    {
      BookOk(prevotes) && BookOk(precommits)
    }

    constructor (height: U64, n: nat, me: Option<nat>, timeouts: Timeouts)
      ensures Cfg() == Config(height, n, if me.Some? && me.value < n then me else None, timeouts)
      ensures View() == NEW && Valid()
    {
      this.height, this.n, this.timeouts := height, n, timeouts;
      this.me := if me.Some? && me.value < n then me else None;
      round, step, locked, valid := 0, Step.Propose, None, None;
      proposals, validity, prevotes, precommits := map[], map[], map[], map[];
      highest, sent, timers, armed, polkaDone := map[], map[], [], {}, {};
      decision, started, resumed, carried := None, false, false, None;
    }

    method Carry(value: ValueId)
      requires Valid()
      modifies this
      ensures Valid()
      ensures Returns(Cfg(), old(View()), Call.Carry(value), View(), [])
    {
      if !started {
        carried := Some(value);
      }
    }

    method Restore(saved: Saved)
      requires Valid()
      modifies this
      ensures Valid()
      ensures View() == Restored(Cfg(), old(View()), saved)
    {
      if saved.height != height || started {
        return;
      }
      round, step, locked, valid := saved.round, saved.step, saved.locked, saved.valid;
      ghost var s0 := View();
      assert s0 == old(View()).(round := saved.round, step := saved.step, locked := saved.locked, valid := saved.valid);
      for i := 0 to |saved.sent|
        invariant Valid()
        invariant View() == Replayed(Cfg(), s0, saved.sent[..i])
      {
        assert saved.sent[..i + 1][..i] == saved.sent[..i];
        ReplayEntry(saved.sent[i]);
      }
      assert saved.sent[..|saved.sent|] == saved.sent;
      resumed := true;
    }

    method ReplayEntry(e: Entry)
      requires Valid()
      modifies this
      ensures Valid()
      ensures View() == ReplayOne(Cfg(), old(View()), e)
    {
      sent := sent[(e.round, e.kind) := e.ballot];
      if me.Some? {
        Book(e.kind, e.round, me.value, e.ballot);
      }
    }

    method Save() returns (saved: Saved)
      ensures IsSaved(Cfg(), View(), saved)
    {
      var list := InOrder(sent);
      saved := Saved(height, round, step, locked, valid, list);
    }

    // ----- reading

    method ValueWithQuorum(kind: VoteKind, r: Round) returns (found: Option<ValueId>)
      requires Valid()
      ensures found.Some? ==> HasQuorum(Cfg(), BookOf(View(), kind), r, Some(found.value))
      ensures found.None? ==> forall v: ValueId :: !HasQuorum(Cfg(), BookOf(View(), kind), r, Some(v))
    {
      var book := BookOf(View(), kind);
      var row := Row(book, r);
      found := QuorumValue(row, Quorum(n));
      assert forall v: ValueId :: Backers(row, row.Keys, v) == Voters(book, r, Some(v));
    }

    method FindDecision() returns (d: Option<RoundValue>)
      requires Valid()
      ensures FoundDecision(Cfg(), View(), d)
    {
      ghost var c, s := Cfg(), View();
      var todo := precommits.Keys;
      while todo != {}
        invariant todo <= precommits.Keys
        invariant forall r, x :: r in precommits && r !in todo && x in todo ==> r < x
        invariant forall r :: r in precommits && r !in todo ==> MayPass(c, s, r)
      {
        var r := LeastOf(todo);
        var v := ValueWithQuorum(VoteKind.Precommit, r);
        if v.Some? && Acceptable(View(), v.value) {
          return Some(RoundValue(r, v.value));
        }
        WalksPast(c, s, r, v);
        todo := todo - {r};
      }
      d := None;
    }

    method FindSkipTarget() returns (target: Option<Round>)
      ensures target == SkipTarget(Cfg(), View())
    {
      var rounds := RoundsOfOthers(Cfg(), highest);
      var sorted := SortDescending(rounds);
      var at := SkipThreshold(n) - 1;
      if at < |sorted| && sorted[at] > round {
        target := Some(sorted[at]);
      } else {
        target := None;
      }
      SkipTargetIsKthHighest(Cfg(), View(), sorted);
    }

    // ----- changing

    method Book(kind: VoteKind, r: Round, from: nat, ballot: Ballot)
      requires Valid()
      modifies this
      ensures Valid()
      ensures View() == Recorded(old(View()), kind, r, from, ballot)
    {
      match kind {
        case Prevote =>
          RecordKeepsBookOk(prevotes, r, from, ballot);
          prevotes := Record(prevotes, r, from, ballot);
        case Precommit =>
          RecordKeepsBookOk(precommits, r, from, ballot);
          precommits := Record(precommits, r, from, ballot);
      }
    }

    method ArmTimer(timer: Timer, r: Round, now: U64)
      requires Valid()
      modifies this`armed, this`timers
      ensures Valid()
      ensures View() == Arm(Cfg(), old(View()), timer, r, now)
    {
      if (timer, r) !in armed {
        armed := armed + {(timer, r)};
        timers := timers + [Pending(timer, r, SatAdd(now, TimeoutOf(timeouts, timer, r)))];
      }
    }

    method EnterRound(now: U64, r: Round) returns (out: seq<Action>)
      requires Valid()
      modifies this
      ensures Valid()
      ensures Effect(View(), out) == StartRound(Cfg(), old(View()), now, r)
    {
      out := [];
      round := r;
      step := Step.Propose;
      if Some(Proposer(Cfg(), r)) == me && (r, VoteKind.Prevote) !in sent {
        out := [Action.Propose(r,
                               if valid.Some? then Some(valid.value.round) else None,
                               if valid.Some? then Some(valid.value.value) else carried)];
      }
      ArmTimer(Timer.Propose, r, now);
    }

    method CastVote(kind: VoteKind, ballot: Ballot) returns (out: seq<Action>)
      requires Valid()
      modifies this
      ensures Valid()
      ensures Effect(View(), out) == Cast(Cfg(), old(View()), kind, ballot)
    {
      out := [];
      if me.None? || (round, kind) in sent {
        return;
      }
      sent := sent[(round, kind) := ballot];
      Book(kind, round, me.value, ballot);
      out := [Action.Vote(kind, round, ballot)];
    }

    /** One pass of the `progress` loop. */
    method Pass(now: U64) returns (out: seq<Action>, again: bool, ghost pick: Pick)
      requires Valid()
      modifies this
      ensures Valid()
      ensures PickOk(Cfg(), old(View()), pick)
      ensures Turn(View(), out, again) == Iteration(Cfg(), old(View()), now, pick)
    {
      out, again := [], false;
      var polka := ValueWithQuorum(VoteKind.Prevote, round);
      var found := FindDecision();
      pick := Pick(found, polka);
      if decision.None? && found.Some? {
        decision := found;
        timers := [];
        out := [Action.Decide(found.value.round, found.value.value)];
      }
      if decision.Some? || me.None? || !started || n == 0 {
        return;
      }
      var target := FindSkipTarget();
      if target.Some? {
        out := EnterRound(now, target.value);
        return out, true, pick;
      }
      var verdict := Verdict(Cfg(), View());
      if verdict.Some? {
        out := CastAndEnter(VoteKind.Prevote, verdict.value, Step.Prevote);
        return out, true, pick;
      }
      out, again := Weigh(now, polka);
    }

    method Weigh(now: U64, polka: Option<ValueId>) returns (out: seq<Action>, again: bool)
      requires Valid()
      modifies this
      ensures Valid()
      ensures Turn(View(), out, again) == Weighed(Cfg(), PrevoteArmed(Cfg(), old(View()), now), now, polka)
    {
      out, again := [], false;
      if step.Prevote? && |Row(prevotes, round)| >= Quorum(n) {
        ArmTimer(Timer.Prevote, round, now);
      }
      if !step.Propose? && round !in polkaDone && polka.Some? && Acceptable(View(), polka.value) {
        out := TakePolka(polka.value);
        return out, true;
      }
      if step.Prevote? && HasQuorum(Cfg(), prevotes, round, None) {
        out := CastAndEnter(VoteKind.Precommit, None, Step.Precommit);
        return out, true;
      }
      if |Row(precommits, round)| >= Quorum(n) {
        ArmTimer(Timer.Precommit, round, now);
      }
    }

    method TakePolka(v: ValueId) returns (out: seq<Action>)
      requires Valid()
      modifies this
      ensures Valid()
      ensures Effect(View(), out) == HandlePolka(Cfg(), old(View()), v)
    {
      out := [];
      polkaDone := polkaDone + {round};
      if step.Prevote? {
        locked := Some(RoundValue(round, v));
        out := CastAndEnter(VoteKind.Precommit, Some(v), Step.Precommit);
      }
      valid := Some(RoundValue(round, v));
    }

    method CastAndEnter(kind: VoteKind, ballot: Ballot, next: Step) returns (out: seq<Action>)
      requires Valid()
      modifies this
      ensures Valid()
      ensures Effect(View(), out) == CastAndStep(Cfg(), old(View()), kind, ballot, next)
    {
      out := CastVote(kind, ballot);
      step := next;
    }

    /** Loops until nothing is left to do; the measure shows it always gets there. */
    method Progress(now: U64) returns (out: seq<Action>)
      requires Valid()
      modifies this
      ensures Valid()
      ensures Progressed(Cfg(), old(View()), now, View(), out)
    {
      ghost var picks: seq<Pick>;
      out, picks := RunProgress(now);
    }

    method RunProgress(now: U64) returns (out: seq<Action>, ghost picks: seq<Pick>)
      requires Valid()
      modifies this
      ensures Valid()
      ensures Legal(Cfg(), old(View()), now, picks)
      ensures After(Cfg(), old(View()), now, picks) == Turn(View(), out, false)
    {
      out, picks := [], [];
      var again := true;
      while again
        invariant Valid()
        invariant Legal(Cfg(), old(View()), now, picks)
        invariant After(Cfg(), old(View()), now, picks) == Turn(View(), out, again)
        decreases again, Effort(Cfg(), View())
      {
        ghost var s := View();
        ghost var pick: Pick;
        var more: seq<Action>;
        more, again, pick := Pass(now);
        OneMorePass(Cfg(), old(View()), now, picks, pick);
        if again { EffortDrops(Cfg(), s, now, pick); }
        picks := picks + [pick];
        out := out + more;
      }
    }

    // ----- the public calls

    method Start(now: U64) returns (out: seq<Action>)
      requires Valid()
      modifies this
      ensures Valid()
      ensures Returns(Cfg(), old(View()), Call.Start(now), View(), out)
    {
      if started {
        return [];
      }
      started := true;
      out := [];
      if me.Some? && n > 0 {
        if !resumed || step.Propose? {
          out := EnterRound(now, round);
        } else if step.Prevote? {
          ArmTimer(Timer.Prevote, round, now);
        } else {
          ArmTimer(Timer.Precommit, round, now);
        }
      }
      assert Effect(View(), out) == Started(Cfg(), old(View()), now);
      var more := Progress(now);
      out := out + more;
      ReturnsAfter(Cfg(), old(View()), Call.Start(now), View(), more);
    }

    method OnProposal(now: U64, r: Round, from: nat, value: ValueId, pol: Option<Round>, ok: bool)
      returns (out: seq<Action>)
      requires Valid()
      modifies this
      ensures Valid()
      ensures Returns(Cfg(), old(View()), Call.OnProposal(now, r, from, value, pol, ok), View(), out)
    {
      TakeOffer(r, from, value, pol, ok);
      out := Progress(now);
      ReturnsAfter(Cfg(), old(View()), Call.OnProposal(now, r, from, value, pol, ok), View(), out);
      assert [] + out == out;
    }

    method TakeOffer(r: Round, from: nat, value: ValueId, pol: Option<Round>, ok: bool)
      requires Valid()
      modifies this`proposals, this`validity, this`highest
      ensures Valid()
      ensures View() == Offered(Cfg(), old(View()), r, from, value, pol, ok)
    {
      if WellFormedProposal(Cfg(), r, from, pol) && InWindow(View(), r) {
        if r !in proposals {
          proposals := proposals[r := Offer(value, pol)];
        }
        if value !in validity {
          validity := validity[value := ok];
        }
        Note(from, r);
      }
    }

    method OnValue(now: U64, value: ValueId, ok: bool) returns (out: seq<Action>)
      requires Valid()
      modifies this
      ensures Valid()
      ensures Returns(Cfg(), old(View()), Call.OnValue(now, value, ok), View(), out)
    {
      if value !in validity {
        validity := validity[value := ok];
      }
      assert View() == Learned(old(View()), value, ok);
      out := Progress(now);
      ReturnsAfter(Cfg(), old(View()), Call.OnValue(now, value, ok), View(), out);
      assert [] + out == out;
    }

    method OnVote(now: U64, kind: VoteKind, r: Round, from: nat, ballot: Ballot) returns (out: seq<Action>)
      requires Valid()
      modifies this
      ensures Valid()
      ensures Returns(Cfg(), old(View()), Call.OnVote(now, kind, r, from, ballot), View(), out)
    {
      if from < n && Some(from) != me {
        Note(from, r);
        if InWindow(View(), r) {
          Book(kind, r, from, ballot);
        }
      }
      assert View() == Heard(Cfg(), old(View()), kind, r, from, ballot);
      out := Progress(now);
      ReturnsAfter(Cfg(), old(View()), Call.OnVote(now, kind, r, from, ballot), View(), out);
      assert [] + out == out;
    }

    method Note(from: nat, r: Round)
      requires Valid()
      modifies this`highest
      ensures Valid()
      ensures View() == NoteRound(old(View()), from, r)
    {
      if from !in highest || r > highest[from] {
        highest := highest[from := r];
      }
    }

    method Tick(now: U64) returns (out: seq<Action>)
      requires Valid()
      modifies this
      ensures Valid()
      ensures Returns(Cfg(), old(View()), Call.Tick(now), View(), out)
    {
      var due := TakeDue(now);
      var first, script := HandleDue(now, due);
      var rest := Progress(now);
      out := first + rest;
    }

    method TakeDue(now: U64) returns (due: seq<Pending>)
      requires Valid()
      modifies this`timers
      ensures Valid()
      ensures View() == Drained(old(View()), now) && due == DueTimers(old(View()), now)
    {
      due := [];
      var keep: seq<Pending> := [];
      for i := 0 to |timers|
        invariant View() == old(View())
        invariant due == DueOnly(timers[..i], now) && keep == LaterOnly(timers[..i], now)
      {
        assert timers[..i + 1][..i] == timers[..i];
        if timers[i].at <= now {
          due := due + [timers[i]];
        } else {
          keep := keep + [timers[i]];
        }
      }
      assert timers[..|timers|] == timers;
      timers := keep;
      due := ByDeadline(due);
    }

    method HandleDue(now: U64, due: seq<Pending>) returns (out: seq<Action>, ghost script: seq<seq<Pick>>)
      requires Valid()
      modifies this
      ensures Valid() && |script| == |due|
      ensures LegalScript(Cfg(), old(View()), now, due, script)
      ensures Handled(Cfg(), old(View()), now, due, script) == Effect(View(), out)
    {
      out, script := [], [];
      var i := 0;
      while i < |due| && decision.None?
        invariant 0 <= i <= |due| && |script| == i && Valid()
        invariant LegalScript(Cfg(), old(View()), now, due[..i], script)
        invariant Handled(Cfg(), old(View()), now, due[..i], script) == Effect(View(), out)
      {
        var more, picks := HandleTimer(now, due[i]);
        assert due[..i + 1][..i] == due[..i] && (script + [picks])[..i] == script;
        script := script + [picks];
        out := out + more;
        i := i + 1;
      }
      script := DecisionEndsHandling(Cfg(), old(View()), now, due, script, i);
      assert due[..|due|] == due;
    }

    method HandleTimer(now: U64, p: Pending) returns (out: seq<Action>, ghost picks: seq<Pick>)
      requires Valid() && decision.None?
      modifies this
      ensures Valid()
      ensures LegalOne(Cfg(), old(View()), now, p, picks)
      ensures HandleOne(Cfg(), old(View()), now, p, picks) == Effect(View(), out)
    {
      var fired := FireTimer(now, p.timer, p.round);
      var more: seq<Action>;
      more, picks := RunProgress(now);
      out := fired + more;
    }

    method FireTimer(now: U64, timer: Timer, r: Round) returns (out: seq<Action>)
      requires Valid()
      modifies this
      ensures Valid()
      ensures Effect(View(), out) == Fired(Cfg(), old(View()), now, timer, r)
    {
      out := [];
      match timer {
        case Propose =>
          if round == r && step.Propose? {
            out := CastAndEnter(VoteKind.Prevote, None, Step.Prevote);
          }
        case Prevote =>
          if round == r && step.Prevote? {
            out := CastAndEnter(VoteKind.Precommit, None, Step.Precommit);
          }
        case Precommit =>
          if round == r {
            out := EnterRound(now, NextRound(r));
          }
      }
    }
  }

  /** Once a decision is in, the remaining due timers change nothing. */
  lemma DecisionEndsHandling(c: Config, s: Node, now: U64, due: seq<Pending>, script: seq<seq<Pick>>, i: nat)
    returns (whole: seq<seq<Pick>>)
    requires i <= |due| && |script| == i
    requires LegalScript(c, s, now, due[..i], script)
    requires i < |due| ==> Handled(c, s, now, due[..i], script).node.decision.Some?
    ensures |whole| == |due|
    ensures LegalScript(c, s, now, due[..|due|], whole)
    ensures Handled(c, s, now, due[..|due|], whole) == Handled(c, s, now, due[..i], script)
    decreases |due| - i
  {
    if i == |due| {
      whole := script;
    } else {
      var longer := script + [[]];
      var h := Handled(c, s, now, due[..i], script);
      assert due[..i + 1][..i] == due[..i] && longer[..i] == script;
      assert h.acts + [] == h.acts;
      whole := DecisionEndsHandling(c, s, now, due, longer, i + 1);
    }
  }

  lemma WalksPast(c: Config, s: Node, r: Round, v: Option<ValueId>)
    requires v.Some? ==> HasQuorum(c, s.precommits, r, v) && !Acceptable(s, v.value)
    requires v.None? ==> forall u: ValueId :: !HasQuorum(c, s.precommits, r, Some(u))
    ensures MayPass(c, s, r)
  {
  }

  lemma OneMorePass(c: Config, s: Node, now: U64, picks: seq<Pick>, pick: Pick)
    requires Legal(c, s, now, picks) && After(c, s, now, picks).again && PickOk(c, After(c, s, now, picks).node, pick)
    ensures Legal(c, s, now, picks + [pick])
    ensures var before := After(c, s, now, picks);
            var last := Iteration(c, before.node, now, pick);
            After(c, s, now, picks + [pick]) == Turn(last.node, before.acts + last.acts, last.again)
  {
    assert (picks + [pick])[..|picks|] == picks;
  }

  /** An upper bound on the passes `progress` still makes. */
  function Effort(c: Config, s: Node): nat {
    (if CanSkip(c, s.highest, s.round) then 4 else 0) +
    (match s.step case Propose => 2 case Prevote => 1 case Precommit => 0) +
    (if s.round in s.polkaDone then 0 else 1)
  }

  lemma EffortDrops(c: Config, s: Node, now: U64, pick: Pick)
    requires Iteration(c, s, now, pick).again
    ensures Effort(c, Iteration(c, s, now, pick).node) < Effort(c, s)
  {
    var t := Iteration(c, s, now, pick).node;
    if SkipTarget(c, s).Some? {
      assert t.highest == s.highest && !CanSkip(c, s.highest, t.round);
    } else if Verdict(c, s).Some? {
    } else {
      WeighingDrops(c, PrevoteArmed(c, s, now), now, pick.polka);
    }
  }

  lemma WeighingDrops(c: Config, s: Node, now: U64, polka: Option<ValueId>)
    requires !CanSkip(c, s.highest, s.round) && Weighed(c, s, now, polka).again
    ensures Effort(c, Weighed(c, s, now, polka).node) < Effort(c, s)
  {
    var t := Weighed(c, s, now, polka).node;
    if !s.step.Propose? && s.round !in s.polkaDone && polka.Some? && Acceptable(s, polka.value) {
      PolkaDrops(c, s, polka.value);
    } else {
      assert t == CastAndStep(c, s, VoteKind.Precommit, None, Step.Precommit).node;
    }
  }

  lemma PolkaDrops(c: Config, s: Node, v: ValueId)
    requires !CanSkip(c, s.highest, s.round) && !s.step.Propose? && s.round !in s.polkaDone
    ensures Effort(c, HandlePolka(c, s, v).node) < Effort(c, s)
  {
    var t := HandlePolka(c, s, v).node;
    assert s.round in t.polkaDone && t.step == Step.Precommit && t.highest == s.highest && t.round == s.round;
  }

  lemma SkipTargetIsKthHighest(c: Config, s: Node, sorted: seq<Round>)
    requires Descending(sorted)
    requires forall x: int :: AtLeast(sorted, x) == |Ahead(c, s.highest, x)|
    ensures SkipTarget(c, s) ==
            var at := SkipThreshold(c.n) - 1;
            if at < |sorted| && sorted[at] > s.round then Some(sorted[at]) else None
  {
    var at := SkipThreshold(c.n) - 1;
    AtLeastInOrder(sorted, s.round + 1);
    if at < |sorted| {
      var kth: int := sorted[at];
      AtLeastInOrder(sorted, kth);
      AtLeastInOrder(sorted, kth + 1);
      assert EnoughAhead(c, s.highest, kth);
      AheadShrinks(c, s.highest, kth + 1);
    }
  }
}

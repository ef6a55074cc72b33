/**
 The single-height Tendermint node of crates/ego-consensus-core/src/tendermint.rs as a value:
 its fields, the functions that only read them, and the effect of every piece of code that
 changes them. The class in TendermintEngine.dfy is proved against these functions.
 */
module TendermintState {
  import opened Common

  const MAX_ROUND: int := MAX_U32
  const ROUND_WINDOW: int := 64
  const VALUES_PER_VOTER: int := 4

  type Round = U32
  /** A 32-byte block identifier; only ever compared for equality. */
  type ValueId = nat
  /** What a vote names: a block, or nil. */
  type Ballot = Option<ValueId>

  datatype Step = Propose | Prevote | Precommit
  datatype VoteKind = Prevote | Precommit
  datatype Timer = Propose | Prevote | Precommit

  datatype Action =
    | Propose(round: Round, polRound: Option<Round>, offer: Option<ValueId>)
    | Vote(kind: VoteKind, round: Round, ballot: Ballot)
    | Decide(round: Round, value: ValueId)

  datatype Timeouts = Timeouts(
    firstPropose: U64, propose: U64, prevote: U64, precommit: U64, perRound: U64, cap: U64)

  function TimeoutOf(t: Timeouts, timer: Timer, round: Round): U64 {
    var base :=
      match timer
      case Propose => if round == 0 then t.firstPropose else t.propose
      case Prevote => t.prevote
      case Precommit => t.precommit;
    var scaled: U64 := Min(t.perRound * round, MAX_U64);
    Min(SatAdd(base, scaled), Max(t.cap, base))
  }

  datatype RoundValue = RoundValue(round: Round, value: ValueId)
  datatype Offer = Offer(value: ValueId, pol: Option<Round>)
  datatype Pending = Pending(timer: Timer, round: Round, at: U64)
  datatype Entry = Entry(round: Round, kind: VoteKind, ballot: Ballot)

  datatype Saved = Saved(
    height: U64, round: Round, step: Step,
    locked: Option<RoundValue>, valid: Option<RoundValue>, sent: seq<Entry>)

  /** round -> voter -> the distinct ballots seen from that voter, oldest first. */
  type Book = map<Round, map<nat, seq<Ballot>>>

  datatype Config = Config(height: U64, n: nat, me: Option<nat>, timeouts: Timeouts)

  datatype Node = Node(
    round: Round,
    step: Step,
    locked: Option<RoundValue>,
    valid: Option<RoundValue>,
    proposals: map<Round, Offer>,
    validity: map<ValueId, bool>,
    prevotes: Book,
    precommits: Book,
    highest: map<nat, Round>,
    sent: map<(Round, VoteKind), Ballot>,
    timers: seq<Pending>,
    armed: set<(Timer, Round)>,
    polkaDone: set<Round>,
    decision: Option<RoundValue>,
    started: bool,
    resumed: bool,
    carried: Option<ValueId>)

  const NEW := Node(
    0, Step.Propose, None, None, map[], map[], map[], map[], map[], map[], [], {}, {}, None,
    false, false, None)

  function Quorum(n: nat): nat {
    2 * n / 3 + 1
  }

  function SkipThreshold(n: nat): nat {
    (if n >= Quorum(n) then n - Quorum(n) else 0) + 1
  }

  function Proposer(c: Config, round: Round): nat {
    if c.n == 0 then 0 else (c.height + round) % (MAX_U64 + 1) % c.n
  }

  function NextRound(round: Round): Round {
    if round == MAX_ROUND then MAX_ROUND else round + 1
  }

  // ----- the vote book

  function Row(book: Book, round: Round): map<nat, seq<Ballot>> {
    if round in book then book[round] else map[]
  }

  function Ballots(book: Book, round: Round, from: nat): seq<Ballot> {
    if from in Row(book, round) then Row(book, round)[from] else []
  }

  function Record(book: Book, round: Round, from: nat, ballot: Ballot): Book {
    var list := Ballots(book, round, from);
    var list' := if ballot !in list && |list| < VALUES_PER_VOTER then list + [ballot] else list;
    book[round := Row(book, round)[from := list']]
  }

  function Voters(book: Book, round: Round, ballot: Ballot): set<nat> {
    set w | w in Row(book, round) && ballot in Row(book, round)[w]
  }

  predicate HasQuorum(c: Config, book: Book, round: Round, ballot: Ballot) {
    |Voters(book, round, ballot)| >= Quorum(c.n)
  }

  predicate Distinct(list: seq<Ballot>) {
    forall i, j :: 0 <= i < j < |list| ==> list[i] != list[j]
  }

  /** What `Record` maintains: at most four ballots per voter, never the same one twice. */
  predicate BookOk(book: Book) {
    forall r, w :: r in book && w in book[r] ==>
      0 < |book[r][w]| <= VALUES_PER_VOTER && Distinct(book[r][w])
  }

  lemma RecordKeepsBookOk(book: Book, round: Round, from: nat, ballot: Ballot)
    requires BookOk(book)
    ensures BookOk(Record(book, round, from, ballot))
  {
  }

  /** Recording adds at most the ballot it is given. */
  lemma RecordAddsOne(book: Book, round: Round, from: nat, ballot: Ballot)
    ensures forall r: Round, x: nat, b: Ballot :: b in Ballots(Record(book, round, from, ballot), r, x) ==>
              b in Ballots(book, r, x) || (r == round && x == from && b == ballot)
  {
  }

  function BookOf(s: Node, kind: VoteKind): Book {
    match kind
    case Prevote => s.prevotes
    case Precommit => s.precommits
  }

  function Recorded(s: Node, kind: VoteKind, round: Round, from: nat, ballot: Ballot): (t: Node)
    ensures SamePlace(s, t) && t.step == s.step && t.locked == s.locked && t.sent == s.sent
    ensures t.timers == s.timers && t.armed == s.armed
  {
    var book := Record(BookOf(s, kind), round, from, ballot);
    if kind.Prevote? then s.(prevotes := book) else s.(precommits := book)
  }

  // ----- reading the state

  function Acceptable(s: Node, v: ValueId): bool {
    v in s.validity && s.validity[v] && (s.carried.None? || s.carried.value == v)
  }

  /** The other nodes seen at `round` or beyond. */
  function Ahead(c: Config, highest: map<nat, Round>, round: int): set<nat> {
    set w | w in highest && Some(w) != c.me && highest[w] >= round
  }

  predicate EnoughAhead(c: Config, highest: map<nat, Round>, round: int) {
    |Ahead(c, highest, round)| >= SkipThreshold(c.n)
  }

  /** The largest round that enough other nodes have been seen at or beyond. */
  function Furthest(c: Config, highest: map<nat, Round>, round: Round): (r: Round)
    requires EnoughAhead(c, highest, round)
    ensures r >= round && EnoughAhead(c, highest, r)
    ensures forall x: Round :: x > r ==> !EnoughAhead(c, highest, x)
    decreases MAX_ROUND - round
  {
    if round < MAX_ROUND && EnoughAhead(c, highest, round + 1) then Furthest(c, highest, round + 1)
    else
      AheadShrinks(c, highest, round + 1);
      round
  }

  lemma AheadShrinks(c: Config, highest: map<nat, Round>, round: int)
    requires round > MAX_ROUND || !EnoughAhead(c, highest, round)
    ensures forall x: Round :: x >= round ==> !EnoughAhead(c, highest, x)
  {
    forall x: Round | x >= round ensures !EnoughAhead(c, highest, x) {
      SubsetSize(Ahead(c, highest, x), Ahead(c, highest, round));
    }
  }

  predicate CanSkip(c: Config, highest: map<nat, Round>, round: Round) {
    round < MAX_ROUND && EnoughAhead(c, highest, round + 1)
  }

  function SkipTarget(c: Config, s: Node): Option<Round> {
    if CanSkip(c, s.highest, s.round)
    then Some(Furthest(c, s.highest, s.round + 1)) else None
  }

  /**
   The two places where the code asks for "a value with a quorum" scan a hash map, so when two
   values have one, which is found is not determined. A Pick records what was found.
   */
  datatype Pick = Pick(decision: Option<RoundValue>, polka: Option<ValueId>)

  /** The decision search may walk past this round without deciding. */
  ghost predicate MayPass(c: Config, s: Node, round: Round) {
    (forall v: ValueId :: !HasQuorum(c, s.precommits, round, Some(v))) ||
    (exists v: ValueId :: HasQuorum(c, s.precommits, round, Some(v)) && !Acceptable(s, v))
  }

  ghost predicate FoundDecision(c: Config, s: Node, d: Option<RoundValue>) {
    match d
    case None => forall r: Round :: r in s.precommits ==> MayPass(c, s, r)
    case Some(x) =>
      && HasQuorum(c, s.precommits, x.round, Some(x.value))
      && Acceptable(s, x.value)
      && forall r: Round :: r in s.precommits && r < x.round ==> MayPass(c, s, r)
  }

  ghost predicate FoundPolka(c: Config, s: Node, p: Option<ValueId>) {
    match p
    case None => forall v: ValueId :: !HasQuorum(c, s.prevotes, s.round, Some(v))
    case Some(v) => HasQuorum(c, s.prevotes, s.round, Some(v))
  }

  ghost predicate PickOk(c: Config, s: Node, pick: Pick) {
    FoundDecision(c, s, pick.decision) && FoundPolka(c, s, pick.polka)
  }

  /** The prevote the node owes the proposal of its round: None while it cannot judge it yet. */
  function Verdict(c: Config, s: Node): Option<Ballot> {
    if !s.step.Propose? || s.round !in s.proposals then None
    else
      var Offer(v, pol) := s.proposals[s.round];
      if v !in s.validity then None
      else if pol.None? then
        Some(if Acceptable(s, v) && (s.locked.None? || s.locked.value.value == v)
             then Some(v) else None)
      else if HasQuorum(c, s.prevotes, pol.value, Some(v)) then
        Some(if Acceptable(s, v) && (s.locked.None? || s.locked.value.round <= pol.value || s.locked.value.value == v)
             then Some(v) else None)
      else None
  }

  // ----- changing the state

  datatype Effect = Effect(node: Node, acts: seq<Action>)

  /** Only timers, votes and the step may differ. */
  predicate SamePlace(s: Node, t: Node) {
    && t.round == s.round && t.valid == s.valid && t.proposals == s.proposals
    && t.validity == s.validity && t.highest == s.highest && t.polkaDone == s.polkaDone
    && t.decision == s.decision && t.started == s.started && t.resumed == s.resumed
    && t.carried == s.carried
  }

  function Arm(c: Config, s: Node, timer: Timer, round: Round, now: U64): (t: Node)
    ensures SamePlace(s, t) && t.step == s.step && t.locked == s.locked && t.sent == s.sent
    ensures t.prevotes == s.prevotes && t.precommits == s.precommits
    ensures t.armed == s.armed + {(timer, round)}
  {
    if (timer, round) in s.armed then s
    else s.(armed := s.armed + {(timer, round)},
            timers := s.timers + [Pending(timer, round, SatAdd(now, TimeoutOf(c.timeouts, timer, round)))])
  }

  function StartRound(c: Config, s: Node, now: U64, round: Round): (x: Effect)
    ensures SamePlace(s.(round := round), x.node) && x.node.step.Propose? && x.node.locked == s.locked
    ensures x.node.sent == s.sent && x.node.prevotes == s.prevotes && x.node.precommits == s.precommits
  {
    var entered := s.(round := round, step := Step.Propose);
    var acts :=
      if Some(Proposer(c, round)) == c.me && (round, VoteKind.Prevote) !in s.sent
      then [Action.Propose(round,
                           if s.valid.Some? then Some(s.valid.value.round) else None,
                           if s.valid.Some? then Some(s.valid.value.value) else s.carried)]
      else [];
    Effect(Arm(c, entered, Timer.Propose, round, now), acts)
  }

  function Cast(c: Config, s: Node, kind: VoteKind, ballot: Ballot): (x: Effect)
    ensures SamePlace(s, x.node) && x.node.step == s.step && x.node.locked == s.locked
    ensures x.node.timers == s.timers && x.node.armed == s.armed
  {
    if c.me.None? || (s.round, kind) in s.sent then Effect(s, [])
    else
      Effect(Recorded(s.(sent := s.sent[(s.round, kind) := ballot]), kind, s.round, c.me.value, ballot),
             [Action.Vote(kind, s.round, ballot)])
  }

  function CastAndStep(c: Config, s: Node, kind: VoteKind, ballot: Ballot, step: Step): (x: Effect)
    ensures SamePlace(s, x.node) && x.node.step == step && x.node.locked == s.locked
    ensures x.node.timers == s.timers && x.node.armed == s.armed
  {
    var x := Cast(c, s, kind, ballot);
    Effect(x.node.(step := step), x.acts)
  }

  function HandlePolka(c: Config, s: Node, v: ValueId): (x: Effect)
    ensures SamePlace(s.(polkaDone := s.polkaDone + {s.round}, valid := Some(RoundValue(s.round, v))), x.node)
    ensures x.node.step == if s.step.Prevote? then Step.Precommit else s.step
    ensures x.node.timers == s.timers && x.node.armed == s.armed
  {
    var at := Some(RoundValue(s.round, v));
    var done := s.(polkaDone := s.polkaDone + {s.round});
    if s.step.Prevote? then
      var x := CastAndStep(c, done.(locked := at), VoteKind.Precommit, Some(v), Step.Precommit);
      Effect(x.node.(valid := at), x.acts)
    else
      Effect(done.(valid := at), [])
  }

  /** A pass of the `progress` loop: the new state, what it emits, and whether it loops. */
  datatype Turn = Turn(node: Node, acts: seq<Action>, again: bool)

  function Iteration(c: Config, s: Node, now: U64, pick: Pick): Turn {
    if s.decision.None? && pick.decision.Some? then
      Turn(s.(decision := pick.decision, timers := []),
           [Action.Decide(pick.decision.value.round, pick.decision.value.value)], false)
    else if s.decision.Some? || c.me.None? || !s.started || c.n == 0 then Turn(s, [], false)
    else if SkipTarget(c, s).Some? then
      var x := StartRound(c, s, now, SkipTarget(c, s).value);
      Turn(x.node, x.acts, true)
    else if Verdict(c, s).Some? then
      var x := CastAndStep(c, s, VoteKind.Prevote, Verdict(c, s).value, Step.Prevote);
      Turn(x.node, x.acts, true)
    else Weighed(c, PrevoteArmed(c, s, now), now, pick.polka)
  }

  function PrevoteArmed(c: Config, s: Node, now: U64): (a: Node)
    ensures SamePlace(s, a) && a.step == s.step && a.locked == s.locked && a.sent == s.sent
    ensures a.prevotes == s.prevotes && a.precommits == s.precommits
    ensures s.step.Prevote? && |Row(s.prevotes, s.round)| >= Quorum(c.n) ==> (Timer.Prevote, a.round) in a.armed
  {
    if s.step.Prevote? && |Row(s.prevotes, s.round)| >= Quorum(c.n)
    then Arm(c, s, Timer.Prevote, s.round, now) else s
  }

  /** The rest of a pass, once there is neither a decision, nor a round to skip to, nor a
      proposal to judge, and the prevote timer has been seen to. */
  function Weighed(c: Config, s: Node, now: U64, polka: Option<ValueId>): (x: Turn)
    ensures x.node.round == s.round && x.node.highest == s.highest && x.node.decision == s.decision
    ensures x.node.started == s.started && x.node.validity == s.validity && x.node.carried == s.carried
  {
    if !s.step.Propose? && s.round !in s.polkaDone && polka.Some? && Acceptable(s, polka.value) then
      var x := HandlePolka(c, s, polka.value);
      Turn(x.node, x.acts, true)
    else if s.step.Prevote? && HasQuorum(c, s.prevotes, s.round, None) then
      var x := CastAndStep(c, s, VoteKind.Precommit, None, Step.Precommit);
      Turn(x.node, x.acts, true)
    else
      Turn(if |Row(s.precommits, s.round)| >= Quorum(c.n)
           then Arm(c, s, Timer.Precommit, s.round, now) else s, [], false)
  }

  /** The `progress` loop after one pass for every pick. */
  function After(c: Config, s: Node, now: U64, picks: seq<Pick>): Turn {
    if picks == [] then Turn(s, [], true)
    else
      var before := After(c, s, now, picks[..|picks| - 1]);
      var last := Iteration(c, before.node, now, picks[|picks| - 1]);
      Turn(last.node, before.acts + last.acts, last.again)
  }

  /** Every pass but the last looped, and every pick is one the pass could have found. */
  ghost predicate Legal(c: Config, s: Node, now: U64, picks: seq<Pick>) {
    picks != [] ==>
      var before := After(c, s, now, picks[..|picks| - 1]);
      Legal(c, s, now, picks[..|picks| - 1]) && before.again && PickOk(c, before.node, picks[|picks| - 1])
  }

  /** `progress` called on `s` may return in `t` having emitted `out`. */
  ghost predicate Progressed(c: Config, s: Node, now: U64, t: Node, out: seq<Action>) {
    exists picks :: Legal(c, s, now, picks) && After(c, s, now, picks) == Turn(t, out, false)
  }

  // ----- what each public call does before it runs `progress`

  function Started(c: Config, s: Node, now: U64): (x: Effect)
    ensures SamePlace(s.(started := true), x.node) && x.node.locked == s.locked
    ensures x.node.sent == s.sent && x.node.prevotes == s.prevotes && x.node.precommits == s.precommits
  {
    var s := s.(started := true);
    if c.me.None? || c.n == 0 then Effect(s, [])
    else if !s.resumed || s.step.Propose? then StartRound(c, s, now, s.round)
    else if s.step.Prevote? then Effect(Arm(c, s, Timer.Prevote, s.round, now), [])
    else Effect(Arm(c, s, Timer.Precommit, s.round, now), [])
  }

  function NoteRound(s: Node, from: nat, round: Round): (t: Node)
    ensures t == s.(highest := t.highest)
  {
    if from in s.highest && round <= s.highest[from] then s
    else s.(highest := s.highest[from := round])
  }

  function Learned(s: Node, value: ValueId, valid: bool): (t: Node)
    ensures t == s.(validity := t.validity)
  {
    if value in s.validity then s else s.(validity := s.validity[value := valid])
  }

  predicate InWindow(s: Node, round: Round) {
    round <= s.round + ROUND_WINDOW
  }

  predicate WellFormedProposal(c: Config, round: Round, from: nat, pol: Option<Round>) {
    from < c.n && from == Proposer(c, round) && (pol.Some? ==> pol.value < round)
  }

  function Offered(
    c: Config, s: Node, round: Round, from: nat, value: ValueId, pol: Option<Round>, valid: bool): (t: Node)
    ensures t == s.(proposals := t.proposals, validity := t.validity, highest := t.highest)
  {
    if WellFormedProposal(c, round, from, pol) && InWindow(s, round) then
      var s := if round in s.proposals then s else s.(proposals := s.proposals[round := Offer(value, pol)]);
      NoteRound(Learned(s, value, valid), from, round)
    else s
  }

  function Heard(c: Config, s: Node, kind: VoteKind, round: Round, from: nat, ballot: Ballot): (t: Node)
    ensures SamePlace(s.(highest := t.highest), t) && t.step == s.step && t.locked == s.locked && t.sent == s.sent
    ensures t.timers == s.timers && t.armed == s.armed
  {
    if from < c.n && Some(from) != c.me then
      var noted := NoteRound(s, from, round);
      if InWindow(s, round) then Recorded(noted, kind, round, from, ballot) else noted
    else s
  }

  /** A due timer acts only on the round and step it was armed for. */
  function Fired(c: Config, s: Node, now: U64, timer: Timer, round: Round): Effect {
    if s.round != round then Effect(s, [])
    else match timer
      case Propose =>
        if s.step.Propose? then CastAndStep(c, s, VoteKind.Prevote, None, Step.Prevote) else Effect(s, [])
      case Prevote =>
        if s.step.Prevote? then CastAndStep(c, s, VoteKind.Precommit, None, Step.Precommit) else Effect(s, [])
      case Precommit => StartRound(c, s, now, NextRound(round))
  }

  // ----- `tick`

  function DueOnly(timers: seq<Pending>, now: U64): seq<Pending> {
    if timers == [] then []
    else DueOnly(timers[..|timers| - 1], now) +
         (if timers[|timers| - 1].at <= now then [timers[|timers| - 1]] else [])
  }

  function LaterOnly(timers: seq<Pending>, now: U64): seq<Pending> {
    if timers == [] then []
    else LaterOnly(timers[..|timers| - 1], now) +
         (if timers[|timers| - 1].at <= now then [] else [timers[|timers| - 1]])
  }

  predicate NoLaterThan(a: Pending, b: Pending) {
    a.at < b.at || (a.at == b.at && a.round <= b.round)
  }

  function Insert(sorted: seq<Pending>, p: Pending): seq<Pending> {
    if sorted == [] then [p]
    else if NoLaterThan(sorted[|sorted| - 1], p) then sorted + [p]
    else Insert(sorted[..|sorted| - 1], p) + [sorted[|sorted| - 1]]
  }

  /** Stable sort by deadline, then round. */
  function ByDeadline(timers: seq<Pending>): seq<Pending> {
    if timers == [] then []
    else Insert(ByDeadline(timers[..|timers| - 1]), timers[|timers| - 1])
  }

  /** A due timer fires and `progress` runs, unless the node has decided. */
  function HandleOne(c: Config, s: Node, now: U64, p: Pending, picks: seq<Pick>): Effect {
    if s.decision.Some? then Effect(s, [])
    else
      var fired := Fired(c, s, now, p.timer, p.round);
      var after := After(c, fired.node, now, picks);
      Effect(after.node, fired.acts + after.acts)
  }

  ghost predicate LegalOne(c: Config, s: Node, now: U64, p: Pending, picks: seq<Pick>) {
    s.decision.None? ==>
      var fired := Fired(c, s, now, p.timer, p.round).node;
      Legal(c, fired, now, picks) && !After(c, fired, now, picks).again
  }

  /** The due timers handled one after the other. `script` holds the picks of each `progress`. */
  function Handled(c: Config, s: Node, now: U64, due: seq<Pending>, script: seq<seq<Pick>>): Effect
    requires |script| == |due|
  {
    if due == [] then Effect(s, [])
    else
      var k := |due| - 1;
      var before := Handled(c, s, now, due[..k], script[..k]);
      var last := HandleOne(c, before.node, now, due[k], script[k]);
      Effect(last.node, before.acts + last.acts)
  }

  ghost predicate LegalScript(c: Config, s: Node, now: U64, due: seq<Pending>, script: seq<seq<Pick>>)
    requires |script| == |due|
  {
    due != [] ==>
      var k := |due| - 1;
      && LegalScript(c, s, now, due[..k], script[..k])
      && LegalOne(c, Handled(c, s, now, due[..k], script[..k]).node, now, due[k], script[k])
  }

  function DueTimers(s: Node, now: U64): seq<Pending> {
    ByDeadline(DueOnly(s.timers, now))
  }

  function Drained(s: Node, now: U64): Node {
    s.(timers := LaterOnly(s.timers, now))
  }

  ghost predicate Ticked(c: Config, s: Node, now: U64, t: Node, out: seq<Action>) {
    exists script: seq<seq<Pick>>, rest: seq<Action> ::
      && |script| == |DueTimers(s, now)|
      && LegalScript(c, Drained(s, now), now, DueTimers(s, now), script)
      && var mid := Handled(c, Drained(s, now), now, DueTimers(s, now), script);
         Progressed(c, mid.node, now, t, rest) && out == mid.acts + rest
  }

  // ----- the public calls

  datatype Call =
    | Carry(value: ValueId)
    | Start(now: U64)
    | OnProposal(now: U64, round: Round, from: nat, value: ValueId, pol: Option<Round>, ok: bool)
    | OnValue(now: U64, value: ValueId, ok: bool)
    | OnVote(now: U64, kind: VoteKind, round: Round, from: nat, ballot: Ballot)
    | Tick(now: U64)

  /** What a call other than `tick` does before it runs `progress`. */
  function FirstEffect(c: Config, s: Node, call: Call): Effect
    requires !call.Tick? && !call.Carry?
  {
    match call
    case Start(now) => Started(c, s, now)
    case OnProposal(_, round, from, value, pol, ok) => Effect(Offered(c, s, round, from, value, pol, ok), [])
    case OnValue(_, value, ok) => Effect(Learned(s, value, ok), [])
    case OnVote(_, kind, round, from, ballot) => Effect(Heard(c, s, kind, round, from, ballot), [])
  }

  /** The call made in `s` may return `out` and leave the node in `t`. */
  ghost predicate Returns(c: Config, s: Node, call: Call, t: Node, out: seq<Action>) {
    match call
    case Carry(v) => t == (if s.started then s else s.(carried := Some(v))) && out == []
    case Tick(now) => Ticked(c, s, now, t, out)
    case _ =>
      if call.Start? && s.started then t == s && out == []
      else
        var first := FirstEffect(c, s, call);
        exists rest: seq<Action> :: Progressed(c, first.node, call.now, t, rest) && out == first.acts + rest
  }

  lemma ReturnsAfter(c: Config, s: Node, call: Call, t: Node, rest: seq<Action>)
    requires !call.Tick? && !call.Carry? && !(call.Start? && s.started)
    requires Progressed(c, FirstEffect(c, s, call).node, call.now, t, rest)
    ensures Returns(c, s, call, t, FirstEffect(c, s, call).acts + rest)
  {
  }

  // ----- saving and restoring

  predicate EntryBefore(a: Entry, b: Entry) {
    a.round < b.round || (a.round == b.round && a.kind.Prevote? && b.kind.Precommit?)
  }

  predicate StrictlySorted(entries: seq<Entry>) {
    forall i, j :: 0 <= i < j < |entries| ==> EntryBefore(entries[i], entries[j])
  }

  function SentMap(entries: seq<Entry>): map<(Round, VoteKind), Ballot> {
    if entries == [] then map[]
    else
      var e := entries[|entries| - 1];
      SentMap(entries[..|entries| - 1])[(e.round, e.kind) := e.ballot]
  }

  /** `saved` holds exactly the persistent fields of `s`, its votes sorted by round and kind. */
  predicate IsSaved(c: Config, s: Node, saved: Saved) {
    && saved.height == c.height && saved.round == s.round && saved.step == s.step
    && saved.locked == s.locked && saved.valid == s.valid
    && StrictlySorted(saved.sent) && SentMap(saved.sent) == s.sent
  }

  function ReplayOne(c: Config, s: Node, e: Entry): (t: Node)
    ensures SamePlace(s, t) && t.step == s.step && t.locked == s.locked
    ensures t.timers == s.timers && t.armed == s.armed
    ensures t.sent == s.sent[(e.round, e.kind) := e.ballot]
  {
    var noted := s.(sent := s.sent[(e.round, e.kind) := e.ballot]);
    if c.me.Some? then Recorded(noted, e.kind, e.round, c.me.value, e.ballot) else noted
  }

  function Replayed(c: Config, s: Node, entries: seq<Entry>): Node {
    if entries == [] then s
    else ReplayOne(c, Replayed(c, s, entries[..|entries| - 1]), entries[|entries| - 1])
  }

  function Restored(c: Config, s: Node, saved: Saved): Node {
    if saved.height != c.height || s.started then s
    else
      Replayed(c, s.(round := saved.round, step := saved.step, locked := saved.locked, valid := saved.valid),
               saved.sent).(resumed := true)
  }
}

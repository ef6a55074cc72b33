/**
 The accounts the escrow program works on, as a ledger: lamports, token accounts and escrows.
 The calls into the system and token programs are modelled by their effect on balances.
 */
module EscrowLedger {
  import opened Common
  import opened EscrowCodec

  datatype Token = Token(mint: Key, owner: Key, amount: nat)

  /** `lamports` of every account; token accounts; escrows, in the form they unpack to. An
      account in neither of the last two maps belongs to the system program and is empty. */
  datatype Ledger = Ledger(lamports: map<Key, nat>, tokens: map<Key, Token>, escrows: map<Key, Escrow>)

  type Outcome = Result<Ledger, EscrowError>

  function Balance(l: Ledger, k: Key): nat {
    if k in l.lamports then l.lamports[k] else 0
  }

  predicate Unused(l: Ledger, k: Key) {
    k !in l.tokens && k !in l.escrows
  }

  function Shift(l: Ledger, from: Key, to: Key, amount: nat): Ledger
    requires amount <= Balance(l, from) && from != to
  {
    l.(lamports := l.lamports[from := Balance(l, from) - amount][to := Balance(l, to) + amount])
  }

  /** Both sides are checked: the source must cover the amount, the target must not overflow. */
  function Moved(l: Ledger, from: Key, to: Key, amount: nat): Outcome {
    if amount == 0 || from == to then Ok(l)
    else if Balance(l, from) < amount then Err(BadAmount)
    else if Balance(l, to) + amount > MAX_U64 then Err(BadAmount)
    else Ok(Shift(l, from, to, amount))
  }

  function Missing(l: Ledger, target: Key, required: nat): nat {
    Max(0, required - Balance(l, target))
  }

  /** The account is topped up to the required lamports at the payer's expense. The system
      program only debits accounts of its own. */
  function Created(l: Ledger, payer: Key, target: Key, required: nat): Outcome {
    var need := Missing(l, target, required);
    var r := Moved(l, payer, target, need);
    if (need > 0 && !Unused(l, payer)) || r.Err? then Err(Runtime) else r
  }

  /** What the token program does on a checked transfer signed by `authority`. */
  function TokensMoved(l: Ledger, from: Key, to: Key, mint: Key, amount: nat, authority: Key): Outcome {
    if from !in l.tokens || to !in l.tokens || l.tokens[from].mint != mint || l.tokens[to].mint != mint ||
       l.tokens[from].owner != authority || l.tokens[from].amount < amount then Err(Runtime)
    else if from == to then Ok(l)
    else if l.tokens[to].amount + amount > MAX_U64 then Err(Runtime)
    else
      var taken := l.tokens[from := l.tokens[from].(amount := l.tokens[from].amount - amount)];
      Ok(l.(tokens := taken[to := taken[to].(amount := taken[to].amount + amount)]))
  }

  /** What the token program does on closing an empty account: its lamports go to `to`. */
  function Closed(l: Ledger, k: Key, to: Key, authority: Key): Outcome {
    if k !in l.tokens || l.tokens[k].amount != 0 || l.tokens[k].owner != authority || k == to then Err(Runtime)
    else
      var r := Moved(l, k, to, Balance(l, k));
      if r.Err? then Err(Runtime) else Ok(r.value.(tokens := r.value.tokens - {k}))
  }

  // ----- totals

  ghost function Pick<T>(m: map<Key, T>): (k: Key)
    requires m != map[]
    ensures k in m
  {
    assert m.Keys != {};
    var k :| k in m;
    k
  }

  ghost function Total<T(!new)>(m: map<Key, T>, f: T -> nat): nat
    decreases |m|
  {
    if m == map[] then 0
    else
      var k := Pick(m);
      Shrinks(m, k);
      f(m[k]) + Total(m - {k}, f)
  }

  lemma Shrinks<T>(m: map<Key, T>, k: Key)
    requires k in m
    ensures |m - {k}| < |m|
  {
    assert (m - {k}).Keys == m.Keys - {k};
    assert |m.Keys| == |m| && |(m - {k}).Keys| == |m - {k}|;
  }

  lemma {:induction false} TotalWithout<T(!new)>(m: map<Key, T>, f: T -> nat, k: Key)
    requires k in m
    ensures Total(m, f) == f(m[k]) + Total(m - {k}, f)
    decreases |m|
  {
    var first := Pick(m);
    if first != k {
      Shrinks(m, first);
      Shrinks(m, k);
      TotalWithout(m - {first}, f, k);
      TotalWithout(m - {k}, f, first);
      assert m - {first} - {k} == m - {k} - {first};
    }
  }

  lemma TotalUpdate<T(!new)>(m: map<Key, T>, f: T -> nat, k: Key, v: T)
    ensures Total(m[k := v], f) == f(v) + Total(m - {k}, f)
    ensures Total(m, f) == (if k in m then f(m[k]) else 0) + Total(m - {k}, f)
  {
    TotalWithout(m[k := v], f, k);
    assert m[k := v] - {k} == m - {k};
    if k in m {
      TotalWithout(m, f, k);
    } else {
      assert m - {k} == m;
    }
  }

  /** Changing two entries by amounts that cancel out. */
  lemma TotalShift<T(!new)>(m: map<Key, T>, f: T -> nat, from: Key, to: Key, a: T, b: T)
    requires from != to
    ensures Total(m[from := a][to := b], f) + Worth(m, f, from) + Worth(m, f, to) == Total(m, f) + f(a) + f(b)
  {
    TotalUpdate(m, f, from, a);
    TotalUpdate(m[from := a], f, to, b);
  }

  function Worth<T>(m: map<Key, T>, f: T -> nat, k: Key): nat {
    if k in m then f(m[k]) else 0
  }

  const WHOLE: nat -> nat := x => x

  function InMint(mint: Key): Token -> nat {
    (t: Token) => if t.mint == mint then t.amount else 0
  }

  ghost function Supply(l: Ledger): nat {
    Total(l.lamports, WHOLE)
  }

  ghost function TokenSupply(l: Ledger, mint: Key): nat {
    Total(l.tokens, InMint(mint))
  }

  lemma PairWithinSupply(l: Ledger, a: Key, b: Key)
    requires a != b
    ensures Balance(l, a) + Balance(l, b) <= Supply(l)
  {
    TotalUpdate(l.lamports, WHOLE, a, 0);
    TotalUpdate(l.lamports - {a}, WHOLE, b, 0);
  }

  lemma ShiftConserves(l: Ledger, from: Key, to: Key, amount: nat)
    requires amount <= Balance(l, from) && from != to
    ensures Supply(Shift(l, from, to, amount)) == Supply(l)
  {
    TotalShift<nat>(l.lamports, WHOLE, from, to, Balance(l, from) - amount, Balance(l, to) + amount);
  }

  lemma MovedConserves(l: Ledger, from: Key, to: Key, amount: nat)
    requires Moved(l, from, to, amount).Ok?
    ensures var t := Moved(l, from, to, amount).value;
            Supply(t) == Supply(l) && t.tokens == l.tokens && t.escrows == l.escrows
  {
    if amount != 0 && from != to {
      ShiftConserves(l, from, to, amount);
    }
  }

  /** A move that the source covers cannot fail while all lamports fit in 64 bits. */
  lemma CoveredMoveSucceeds(l: Ledger, from: Key, to: Key, amount: nat)
    requires amount <= Balance(l, from) && Supply(l) <= MAX_U64
    ensures Moved(l, from, to, amount).Ok?
  {
    if from != to {
      PairWithinSupply(l, from, to);
    }
  }

  lemma MovedBalances(l: Ledger, from: Key, to: Key, amount: nat, x: Key)
    requires Moved(l, from, to, amount).Ok?
    ensures var t := Moved(l, from, to, amount).value;
            Balance(t, x) ==
              if from == to then Balance(l, x)
              else if x == to then Balance(l, x) + amount
              else if x == from then Balance(l, x) - amount else Balance(l, x)
  {
  }

  lemma TokensMovedConserve(l: Ledger, from: Key, to: Key, mint: Key, amount: nat, authority: Key, m: Key)
    requires TokensMoved(l, from, to, mint, amount, authority).Ok?
    ensures TokenSupply(TokensMoved(l, from, to, mint, amount, authority).value, m) == TokenSupply(l, m)
  {
    if from != to {
      TotalShift(l.tokens, InMint(m), from, to, l.tokens[from].(amount := l.tokens[from].amount - amount),
                 l.tokens[to].(amount := l.tokens[to].amount + amount));
    }
  }

  lemma TokenPairWithinSupply(l: Ledger, a: Key, b: Key, mint: Key)
    requires a != b && a in l.tokens && b in l.tokens && l.tokens[a].mint == l.tokens[b].mint == mint
    ensures l.tokens[a].amount + l.tokens[b].amount <= TokenSupply(l, mint)
  {
    TotalWithout(l.tokens, InMint(mint), a);
    TotalWithout(l.tokens - {a}, InMint(mint), b);
  }

  lemma DroppingEmptyConserves(l: Ledger, k: Key, m: Key)
    requires k in l.tokens && l.tokens[k].amount == 0
    ensures TokenSupply(l.(tokens := l.tokens - {k}), m) == TokenSupply(l, m)
  {
    TotalWithout(l.tokens, InMint(m), k);
  }

  lemma AddingEmptyConserves(l: Ledger, k: Key, t: Token, m: Key)
    requires k !in l.tokens && t.amount == 0
    ensures TokenSupply(l.(tokens := l.tokens[k := t]), m) == TokenSupply(l, m)
  {
    TotalUpdate(l.tokens, InMint(m), k, t);
    assert l.tokens - {k} == l.tokens;
  }
}

/**
 What holds on every run of the escrow program: money is conserved, open escrows are covered,
 payouts cannot fail and go to the right accounts, and each opening is settled at most once.
 */
module EscrowSafety {
  import opened Common
  import opened EscrowCodec
  import opened EscrowLedger
  import opened EscrowProgram

  // ----- what always holds

  /** The escrow's parties are not the escrow's own address. */
  predicate Apart(escrow: Key, seller: Key, buyer: Key, feeReceiver: Key) {
    seller != escrow && buyer != escrow && feeReceiver != escrow
  }

  /** An open escrow is covered: by its own lamports, or by its vault. */
  predicate Covered(w: World, l: Ledger, k: Key, e: Escrow) {
    if IsNative(e) then Balance(l, k) >= e.total
    else
      var vault := w.createVault(k, e.vaultBump);
      vault.Some? && vault.value != e.seller && IsTokenOf(l, vault.value, k, e.mint) &&
      l.tokens[vault.value].amount >= e.total
  }

  predicate EscrowOk(w: World, l: Ledger, k: Key, e: Escrow) {
    && e.state == STATE_FUNDED && e.fee <= e.total && Apart(k, e.seller, e.buyer, e.feeReceiver)
    && w.create(e.tradeId, e.seller, e.bump) == Some(k) && Covered(w, l, k, e)
  }

  ghost predicate EscrowsOk(w: World, l: Ledger) {
    forall k :: k in l.escrows ==> k !in l.tokens && EscrowOk(w, l, k, l.escrows[k])
  }

  /** All lamports, and all tokens of a mint, fit in 64 bits. */
  ghost predicate Limited(l: Ledger) {
    Supply(l) <= MAX_U64 && forall m: Key :: TokenSupply(l, m) <= MAX_U64
  }

  ghost predicate LedgerOk(w: World, l: Ledger) {
    EscrowsOk(w, l) && Limited(l)
  }

  // ----- conservation

  ghost predicate SameSupplies(l: Ledger, t: Ledger) {
    Supply(t) == Supply(l) && forall m: Key :: TokenSupply(t, m) == TokenSupply(l, m)
  }

  lemma StaysLimited(l: Ledger, t: Ledger)
    requires Limited(l) && SameSupplies(l, t)
    ensures Limited(t)
  {
  }

  lemma TokensUntouched(l: Ledger, t: Ledger)
    requires t.tokens == l.tokens && Supply(t) == Supply(l)
    ensures SameSupplies(l, t)
  {
  }

  lemma MoveKeepsSupplies(l: Ledger, from: Key, to: Key, amount: nat)
    requires Moved(l, from, to, amount).Ok?
    ensures SameSupplies(l, Moved(l, from, to, amount).value)
  {
    MovedConserves(l, from, to, amount);
    TokensUntouched(l, Moved(l, from, to, amount).value);
  }

  lemma TokenMoveKeepsSupplies(l: Ledger, from: Key, to: Key, mint: Key, amount: nat, authority: Key)
    requires TokensMoved(l, from, to, mint, amount, authority).Ok?
    ensures SameSupplies(l, TokensMoved(l, from, to, mint, amount, authority).value)
  {
    forall m: Key ensures TokenSupply(TokensMoved(l, from, to, mint, amount, authority).value, m) == TokenSupply(l, m) {
      TokensMovedConserve(l, from, to, mint, amount, authority, m);
    }
  }

  lemma CloseKeepsSupplies(l: Ledger, k: Key, to: Key, authority: Key)
    requires Closed(l, k, to, authority).Ok?
    ensures SameSupplies(l, Closed(l, k, to, authority).value)
  {
    var r := Moved(l, k, to, Balance(l, k)).value;
    MoveKeepsSupplies(l, k, to, Balance(l, k));
    MovedConserves(l, k, to, Balance(l, k));
    forall m: Key ensures TokenSupply(Closed(l, k, to, authority).value, m) == TokenSupply(l, m) {
      DroppingEmptyConserves(r, k, m);
    }
  }

  lemma VaultKeepsSupplies(w: World, l: Ledger, a: OpenArgs, seller: Key, source: Key, escrow: Key, vault: Key)
    requires vault !in l.tokens && VaultFunded(w, l, a, seller, source, escrow, vault).Ok?
    ensures SameSupplies(l, VaultFunded(w, l, a, seller, source, escrow, vault).value)
    ensures VaultFunded(w, l, a, seller, source, escrow, vault).value.escrows == l.escrows
  {
    var need := Missing(l, vault, w.rentToken);
    MoveKeepsSupplies(l, seller, vault, need);
    MovedConserves(l, seller, vault, need);
    var made := Created(l, seller, vault, w.rentToken).value;
    var open := made.(tokens := made.tokens[vault := Token(a.mint, escrow, 0)]);
    forall m: Key ensures TokenSupply(open, m) == TokenSupply(l, m) {
      AddingEmptyConserves(made, vault, Token(a.mint, escrow, 0), m);
    }
    TokenMoveKeepsSupplies(open, source, vault, a.mint, a.total, seller);
  }

  lemma DepositKeepsSupplies(w: World, l: Ledger, a: OpenArgs, accounts: seq<Meta>, k: Key)
    requires |accounts| >= 3 && Deposited(w, l, a, accounts, k).Ok?
    ensures var t := Deposited(w, l, a, accounts, k).value.0; SameSupplies(l, t) && t.escrows == l.escrows
  {
    var required := w.rentEscrow + if a.mint == NO_KEY then a.total else 0;
    MoveKeepsSupplies(l, accounts[0].key, k, Missing(l, k, required));
    MovedConserves(l, accounts[0].key, k, Missing(l, k, required));
    if a.mint != NO_KEY {
      var made := Created(l, accounts[0].key, k, required).value;
      VaultKeepsSupplies(w, made, a, accounts[0].key, accounts[4].key, k, w.findVault(k).0);
    }
  }

  /** The deposit, and the escrow, which is all the opening adds to it. */
  lemma OpenAddsOnly(w: World, l: Ledger, a: OpenArgs, accounts: seq<Meta>, now: I64) returns (held: Ledger)
    requires Opened(w, l, a, accounts, now).Ok?
    ensures |accounts| >= 3 && Deposited(w, l, a, accounts, accounts[1].key).Ok? && Unused(l, accounts[1].key)
    ensures held == Deposited(w, l, a, accounts, accounts[1].key).value.0
    ensures var t, k := Opened(w, l, a, accounts, now).value, accounts[1].key;
            k in t.escrows && t == held.(escrows := held.escrows[k := t.escrows[k]])
  {
    assert MayOpen(w, l, a, accounts).Ok?;
    held := Deposited(w, l, a, accounts, accounts[1].key).value.0;
  }

  lemma OpenKeepsSupplies(w: World, l: Ledger, a: OpenArgs, accounts: seq<Meta>, now: I64)
    requires Opened(w, l, a, accounts, now).Ok?
    ensures SameSupplies(l, Opened(w, l, a, accounts, now).value)
  {
    var held := OpenAddsOnly(w, l, a, accounts, now);
    DepositKeepsSupplies(w, l, a, accounts, accounts[1].key);
    SuppliesStay(l, held, Opened(w, l, a, accounts, now).value);
  }

  lemma SuppliesStay(l: Ledger, held: Ledger, t: Ledger)
    requires SameSupplies(l, held) && t.tokens == held.tokens && t.lamports == held.lamports
    ensures SameSupplies(l, t)
  {
  }

  lemma SettleKeepsSupplies(w: World, l: Ledger, accounts: seq<Meta>, act: Act, proof: Option<Proof>, now: I64)
    requires Settled(w, l, accounts, act, proof, now).Ok?
    ensures SameSupplies(l, Settled(w, l, accounts, act, proof, now).value)
  {
    var k, e := accounts[1].key, Load(w, l, accounts[1]).value;
    var toBuyer := Direction(w, e, k, accounts[0], act, proof, now).value;
    PayoutKeepsSupplies(w, l, e, k, toBuyer, accounts);
  }

  lemma PayoutKeepsSupplies(w: World, l: Ledger, e: Escrow, k: Key, toBuyer: bool, accounts: seq<Meta>)
    requires PaidOut(w, l, e, k, toBuyer, accounts).Ok?
    ensures SameSupplies(l, PaidOut(w, l, e, k, toBuyer, accounts).value)
  {
    var paid := Paid(w, l, e, k, toBuyer, accounts).value;
    if IsNative(e) {
      NativeKeepsSupplies(l, e, k, toBuyer, accounts);
    } else {
      TokensKeepSupplies(l, e, k, toBuyer, accounts);
    }
    MoveKeepsSupplies(paid, k, e.seller, Balance(paid, k));
  }

  lemma NativeKeepsSupplies(l: Ledger, e: Escrow, k: Key, toBuyer: bool, accounts: seq<Meta>)
    requires NativePayees(e, toBuyer, accounts) && PaidNative(l, e, k, toBuyer, accounts).Ok?
    ensures SameSupplies(l, PaidNative(l, e, k, toBuyer, accounts).value)
  {
    var fee := FeeDue(e, toBuyer);
    MoveKeepsSupplies(l, k, accounts[3].key, e.total - fee);
    if fee > 0 {
      MoveKeepsSupplies(Moved(l, k, accounts[3].key, e.total - fee).value, k, accounts[4].key, fee);
    }
  }

  lemma TokensKeepSupplies(l: Ledger, e: Escrow, k: Key, toBuyer: bool, accounts: seq<Meta>)
    requires HasVault(l, toBuyer, accounts) && PaidTokens(l, e, k, toBuyer, accounts).Ok?
    ensures SameSupplies(l, PaidTokens(l, e, k, toBuyer, accounts).value)
  {
    ShareKeepsSupplies(l, e, k, toBuyer, accounts);
    var sent := ShareSent(l, e, k, toBuyer, accounts).value;
    FeeKeepsSupplies(sent, e, k, VaultOf(toBuyer, accounts), FeeDue(e, toBuyer), accounts);
  }

  lemma ShareKeepsSupplies(l: Ledger, e: Escrow, k: Key, toBuyer: bool, accounts: seq<Meta>)
    requires HasVault(l, toBuyer, accounts) && ShareSent(l, e, k, toBuyer, accounts).Ok?
    ensures SameSupplies(l, ShareSent(l, e, k, toBuyer, accounts).value)
  {
    var vault := VaultOf(toBuyer, accounts);
    TokenMoveKeepsSupplies(l, vault, accounts[3].key, e.mint, l.tokens[vault].amount - FeeDue(e, toBuyer), k);
  }

  lemma FeeKeepsSupplies(l: Ledger, e: Escrow, k: Key, vault: Key, fee: U64, accounts: seq<Meta>)
    requires (fee > 0 ==> |accounts| > 4) && FeePaid(l, e, k, vault, fee, accounts).Ok?
    ensures SameSupplies(l, FeePaid(l, e, k, vault, fee, accounts).value)
  {
    if fee > 0 {
      TokenMoveKeepsSupplies(l, vault, accounts[4].key, e.mint, fee, k);
      CloseKeepsSupplies(TokensMoved(l, vault, accounts[4].key, e.mint, fee, k).value, vault, e.seller, k);
    } else {
      CloseKeepsSupplies(l, vault, e.seller, k);
    }
  }

  // ----- coverage

  /** Nobody but `a` loses lamports, and no token account but `b` loses tokens or its identity. */
  ghost predicate Spares(l: Ledger, t: Ledger, a: Key, b: Key) {
    && t.escrows == l.escrows
    && (forall x: Key :: x != a && x != b ==> Balance(t, x) >= Balance(l, x))
    && (forall x: Key :: x in l.tokens && x != b ==>
          IsTokenOf(t, x, l.tokens[x].owner, l.tokens[x].mint) && t.tokens[x].amount >= l.tokens[x].amount)
    && (forall x: Key :: x in t.tokens ==> x in l.tokens)
  }

  lemma SparesBoth(l: Ledger, m: Ledger, t: Ledger, a: Key, b: Key)
    requires Spares(l, m, a, b) && Spares(m, t, a, b)
    ensures Spares(l, t, a, b)
  {
  }

  lemma MoveSpares(l: Ledger, from: Key, to: Key, amount: nat, b: Key)
    requires Moved(l, from, to, amount).Ok?
    ensures Spares(l, Moved(l, from, to, amount).value, from, b)
  {
    forall x: Key | x != from && x != b ensures Balance(Moved(l, from, to, amount).value, x) >= Balance(l, x) {
      MovedBalances(l, from, to, amount, x);
    }
    MovedConserves(l, from, to, amount);
  }

  lemma TokenMoveSpares(l: Ledger, from: Key, to: Key, mint: Key, amount: nat, authority: Key, a: Key)
    requires TokensMoved(l, from, to, mint, amount, authority).Ok?
    ensures Spares(l, TokensMoved(l, from, to, mint, amount, authority).value, a, from)
  {
  }

  lemma CloseSpares(l: Ledger, k: Key, to: Key, authority: Key, a: Key)
    requires Closed(l, k, to, authority).Ok?
    ensures Spares(l, Closed(l, k, to, authority).value, a, k)
  {
    MoveSpares(l, k, to, Balance(l, k), k);
  }

  lemma PaymentSpares(w: World, l: Ledger, e: Escrow, k: Key, toBuyer: bool, accounts: seq<Meta>)
    requires Payable(w, l, e, k, toBuyer, accounts) && Paid(w, l, e, k, toBuyer, accounts).Ok?
    ensures Spares(l, Paid(w, l, e, k, toBuyer, accounts).value, k,
                   if IsNative(e) then k else VaultOf(toBuyer, accounts))
  {
    var fee := FeeDue(e, toBuyer);
    if IsNative(e) {
      MoveSpares(l, k, accounts[3].key, e.total - fee, k);
      var paid := Moved(l, k, accounts[3].key, e.total - fee).value;
      if fee > 0 {
        MoveSpares(paid, k, accounts[4].key, fee, k);
        SparesBoth(l, paid, Moved(paid, k, accounts[4].key, fee).value, k, k);
      }
    } else {
      TokenPaymentSpares(l, e, k, toBuyer, accounts);
    }
  }

  lemma TokenPaymentSpares(l: Ledger, e: Escrow, k: Key, toBuyer: bool, accounts: seq<Meta>)
    requires HasVault(l, toBuyer, accounts) && PaidTokens(l, e, k, toBuyer, accounts).Ok?
    ensures Spares(l, PaidTokens(l, e, k, toBuyer, accounts).value, k, VaultOf(toBuyer, accounts))
  {
    var vault, fee := VaultOf(toBuyer, accounts), FeeDue(e, toBuyer);
    var sent := ShareSent(l, e, k, toBuyer, accounts).value;
    ShareSpares(l, e, k, toBuyer, accounts);
    FeeSpares(sent, e, k, vault, fee, accounts);
    SparesBoth(l, sent, FeePaid(sent, e, k, vault, fee, accounts).value, k, vault);
  }

  lemma ShareSpares(l: Ledger, e: Escrow, k: Key, toBuyer: bool, accounts: seq<Meta>)
    requires HasVault(l, toBuyer, accounts) && ShareSent(l, e, k, toBuyer, accounts).Ok?
    ensures Spares(l, ShareSent(l, e, k, toBuyer, accounts).value, k, VaultOf(toBuyer, accounts))
  {
    var vault := VaultOf(toBuyer, accounts);
    TokenMoveSpares(l, vault, accounts[3].key, e.mint, l.tokens[vault].amount - FeeDue(e, toBuyer), k, k);
  }

  lemma FeeSpares(l: Ledger, e: Escrow, k: Key, vault: Key, fee: U64, accounts: seq<Meta>)
    requires (fee > 0 ==> |accounts| > 4) && FeePaid(l, e, k, vault, fee, accounts).Ok?
    ensures Spares(l, FeePaid(l, e, k, vault, fee, accounts).value, k, vault)
  {
    if fee > 0 {
      TokenMoveSpares(l, vault, accounts[4].key, e.mint, fee, k, k);
      var paid := TokensMoved(l, vault, accounts[4].key, e.mint, fee, k).value;
      CloseSpares(paid, vault, e.seller, k, k);
      SparesBoth(l, paid, Closed(paid, vault, e.seller, k).value, k, vault);
    } else {
      CloseSpares(l, vault, e.seller, k, k);
    }
  }

  /** An escrow other than the one paid out stays covered. */
  lemma SparedStaysOk(w: World, l: Ledger, t: Ledger, a: Key, b: Key, k: Key)
    requires LedgerOk(w, l) && Spares(l, t, a, b) && k in l.escrows && k != a && k != b
    requires b in l.tokens ==> l.tokens[b].owner != k
    ensures EscrowOk(w, t, k, l.escrows[k]) && k !in t.tokens
  {
    assert EscrowOk(w, l, k, l.escrows[k]);
  }

  lemma SettleKeepsOk(w: World, l: Ledger, accounts: seq<Meta>, act: Act, proof: Option<Proof>, now: I64)
    requires LedgerOk(w, l) && Settled(w, l, accounts, act, proof, now).Ok?
    ensures LedgerOk(w, Settled(w, l, accounts, act, proof, now).value)
  {
    var k, e := accounts[1].key, Load(w, l, accounts[1]).value;
    var toBuyer := Direction(w, e, k, accounts[0], act, proof, now).value;
    SettleKeepsSupplies(w, l, accounts, act, proof, now);
    StaysLimited(l, Settled(w, l, accounts, act, proof, now).value);
    PayoutKeepsOk(w, l, e, k, toBuyer, accounts);
  }

  lemma PayoutKeepsOk(w: World, l: Ledger, e: Escrow, k: Key, toBuyer: bool, accounts: seq<Meta>)
    requires LedgerOk(w, l) && k in l.escrows && l.escrows[k] == e && PaidOut(w, l, e, k, toBuyer, accounts).Ok?
    ensures EscrowsOk(w, PaidOut(w, l, e, k, toBuyer, accounts).value)
  {
    var b := if IsNative(e) then k else VaultOf(toBuyer, accounts);
    var t := PaidOut(w, l, e, k, toBuyer, accounts).value;
    var moved := AllMoved(w, l, e, k, toBuyer, accounts);
    assert EscrowOk(w, l, k, e);
    forall x | x in t.escrows ensures x !in t.tokens && EscrowOk(w, t, x, t.escrows[x]) {
      SparedStaysOk(w, l, moved, k, b, x);
    }
  }

  /** The ledger just before the escrow itself is removed. */
  lemma AllMoved(w: World, l: Ledger, e: Escrow, k: Key, toBuyer: bool, accounts: seq<Meta>) returns (moved: Ledger)
    requires PaidOut(w, l, e, k, toBuyer, accounts).Ok?
    ensures Spares(l, moved, k, if IsNative(e) then k else VaultOf(toBuyer, accounts))
    ensures PaidOut(w, l, e, k, toBuyer, accounts).value == moved.(escrows := l.escrows - {k})
  {
    var b := if IsNative(e) then k else VaultOf(toBuyer, accounts);
    var paid := Paid(w, l, e, k, toBuyer, accounts).value;
    PaymentSpares(w, l, e, k, toBuyer, accounts);
    MoveSpares(paid, k, e.seller, Balance(paid, k), b);
    moved := Moved(paid, k, e.seller, Balance(paid, k)).value;
    SparesBoth(l, paid, moved, k, b);
  }

  // ----- opening

  lemma CreationSpares(l: Ledger, payer: Key, target: Key, required: nat)
    requires Created(l, payer, target, required).Ok?
    ensures var t := Created(l, payer, target, required).value;
            && t.tokens == l.tokens && t.escrows == l.escrows
            && (forall x: Key :: x != payer ==> Balance(t, x) >= Balance(l, x))
            && (payer != target ==> Balance(t, target) >= required)
  {
    var need := Missing(l, target, required);
    MoveSpares(l, payer, target, need, payer);
    MovedConserves(l, payer, target, need);
    MovedBalances(l, payer, target, need, target);
  }

  /** The vault holds exactly the total for its escrow, and nobody else's is touched. */
  lemma VaultIsFunded(w: World, l: Ledger, a: OpenArgs, seller: Key, source: Key, escrow: Key, vault: Key)
    requires Unused(l, vault) && seller != escrow && VaultFunded(w, l, a, seller, source, escrow, vault).Ok?
    ensures var t := VaultFunded(w, l, a, seller, source, escrow, vault).value;
            && vault in t.tokens && t.tokens[vault] == Token(a.mint, escrow, a.total) && t.escrows == l.escrows
            && (forall x: Key :: x != seller ==> Balance(t, x) >= Balance(l, x))
            && (forall x: Key :: x in l.tokens && x != source ==> x in t.tokens && t.tokens[x] == l.tokens[x])
            && (forall x: Key :: x in t.tokens ==> x in l.tokens || x == vault)
            && source in l.tokens && l.tokens[source].owner == seller
  {
    CreationSpares(l, seller, vault, w.rentToken);
  }

  /** Everything the opening moved, before the escrow itself is written. */
  lemma DepositSpares(w: World, l: Ledger, a: OpenArgs, accounts: seq<Meta>, k: Key, x: Key, e: Escrow)
    requires |accounts| >= 3 && Deposited(w, l, a, accounts, k).Ok? && accounts[0].key != k && Unused(l, k)
    requires EscrowOk(w, l, x, e) && x != accounts[0].key && x in l.escrows && x !in l.tokens
    ensures var t := Deposited(w, l, a, accounts, k).value.0;
            EscrowOk(w, t, x, e) && x !in t.tokens && t.escrows == l.escrows
  {
    var seller := accounts[0].key;
    var required := w.rentEscrow + if a.mint == NO_KEY then a.total else 0;
    var made := Created(l, seller, k, required).value;
    CreationSpares(l, seller, k, required);
    CreationKeepsOk(w, l, made, x, e);
    if a.mint != NO_KEY {
      VaultIsFunded(w, made, a, seller, accounts[4].key, k, w.findVault(k).0);
      OthersVaultsStay(w, made, Deposited(w, l, a, accounts, k).value.0, x, e, seller, accounts[4].key);
    }
  }

  lemma CreationKeepsOk(w: World, l: Ledger, t: Ledger, x: Key, e: Escrow)
    requires EscrowOk(w, l, x, e) && t.tokens == l.tokens && Balance(t, x) >= Balance(l, x)
    ensures EscrowOk(w, t, x, e)
  {
  }

  lemma OthersVaultsStay(w: World, l: Ledger, t: Ledger, x: Key, e: Escrow, seller: Key, source: Key)
    requires EscrowOk(w, l, x, e) && x != seller && source in l.tokens && l.tokens[source].owner == seller
    requires Balance(t, x) >= Balance(l, x)
    requires forall y: Key :: y in l.tokens && y != source ==> y in t.tokens && t.tokens[y] == l.tokens[y]
    ensures EscrowOk(w, t, x, e)
  {
  }

  /** The deposit covers the new escrow. */
  lemma DepositCovers(w: World, l: Ledger, a: OpenArgs, accounts: seq<Meta>, k: Key, e: Escrow)
    requires WorldOk(w) && |accounts| >= 3 && Deposited(w, l, a, accounts, k).Ok?
    requires accounts[0].key != k && Unused(l, k)
    requires e.mint == a.mint && e.total == a.total && e.vaultBump == Deposited(w, l, a, accounts, k).value.1
    requires e.seller == accounts[0].key != w.findVault(k).0
    ensures var t := Deposited(w, l, a, accounts, k).value.0;
            Covered(w, t, k, e) && k !in t.tokens && t.escrows == l.escrows
  {
    if a.mint == NO_KEY {
      CreationSpares(l, accounts[0].key, k, w.rentEscrow + a.total);
    } else {
      VaultCovers(w, l, a, accounts, k, e);
    }
  }

  lemma VaultCovers(w: World, l: Ledger, a: OpenArgs, accounts: seq<Meta>, k: Key, e: Escrow)
    requires WorldOk(w) && |accounts| >= 3 && Deposited(w, l, a, accounts, k).Ok?
    requires accounts[0].key != k && Unused(l, k)
    requires e.mint == a.mint != NO_KEY && e.total == a.total && e.vaultBump == Deposited(w, l, a, accounts, k).value.1
    requires e.seller == accounts[0].key != w.findVault(k).0
    ensures var t := Deposited(w, l, a, accounts, k).value.0;
            Covered(w, t, k, e) && k !in t.tokens && t.escrows == l.escrows
  {
    var seller, made := accounts[0].key, Created(l, accounts[0].key, k, w.rentEscrow).value;
    CreationSpares(l, seller, k, w.rentEscrow);
    VaultIsFunded(w, made, a, seller, accounts[4].key, k, w.findVault(k).0);
  }

  /** An opening is a deposit and an escrow written on the terms given. */
  lemma OpenedIs(w: World, l: Ledger, a: OpenArgs, accounts: seq<Meta>, now: I64) returns (held: Ledger, e: Escrow)
    requires WorldOk(w) && Opened(w, l, a, accounts, now).Ok?
    ensures |accounts| >= 3 && Unused(l, accounts[1].key)
    ensures Deposited(w, l, a, accounts, accounts[1].key) == Ok((held, e.vaultBump))
    ensures Opened(w, l, a, accounts, now).value == held.(escrows := held.escrows[accounts[1].key := e])
    ensures e.seller == accounts[0].key && e.buyer == a.buyer && e.feeReceiver == a.feeReceiver
    ensures e.mint == a.mint && e.total == a.total && e.fee <= e.total && e.state == STATE_FUNDED
    ensures w.create(e.tradeId, e.seller, e.bump) == Some(accounts[1].key)
  {
    held := OpenAddsOnly(w, l, a, accounts, now);
    e := Opened(w, l, a, accounts, now).value.escrows[accounts[1].key];
  }

  lemma OpenKeepsOk(w: World, l: Ledger, a: OpenArgs, accounts: seq<Meta>, now: I64)
    requires WorldOk(w) && LedgerOk(w, l) && Opened(w, l, a, accounts, now).Ok?
    requires Apart(accounts[1].key, accounts[0].key, a.buyer, a.feeReceiver) && accounts[0].key !in l.escrows
    requires accounts[0].key != w.findVault(accounts[1].key).0
    ensures LedgerOk(w, Opened(w, l, a, accounts, now).value)
  {
    var t := Opened(w, l, a, accounts, now).value;
    OpenKeepsSupplies(w, l, a, accounts, now);
    StaysLimited(l, t);
    var held, e := OpenedIs(w, l, a, accounts, now);
    OpenCovers(w, l, a, accounts, held, e);
  }

  /** With the deposit made and the escrow written, it and every other one is covered. */
  lemma OpenCovers(w: World, l: Ledger, a: OpenArgs, accounts: seq<Meta>, held: Ledger, e: Escrow)
    requires WorldOk(w) && EscrowsOk(w, l) && |accounts| >= 3 && Unused(l, accounts[1].key)
    requires Deposited(w, l, a, accounts, accounts[1].key) == Ok((held, e.vaultBump))
    requires e.seller == accounts[0].key && e.buyer == a.buyer && e.feeReceiver == a.feeReceiver
    requires e.mint == a.mint && e.total == a.total && e.fee <= e.total && e.state == STATE_FUNDED
    requires w.create(e.tradeId, e.seller, e.bump) == Some(accounts[1].key)
    requires Apart(accounts[1].key, accounts[0].key, a.buyer, a.feeReceiver) && accounts[0].key !in l.escrows
    requires accounts[0].key != w.findVault(accounts[1].key).0
    ensures EscrowsOk(w, held.(escrows := held.escrows[accounts[1].key := e]))
  {
    var k := accounts[1].key;
    var t := held.(escrows := held.escrows[k := e]);
    DepositCovers(w, l, a, accounts, k, e);
    forall x | x in t.escrows ensures x !in t.tokens && EscrowOk(w, t, x, t.escrows[x]) {
      if x == k {
        CoverStays(w, held, t, k, e);
      } else {
        DepositSpares(w, l, a, accounts, k, x, l.escrows[x]);
        CreationKeepsOk(w, held, t, x, l.escrows[x]);
      }
    }
  }

  lemma CoverStays(w: World, l: Ledger, t: Ledger, k: Key, e: Escrow)
    requires Covered(w, l, k, e) && t.tokens == l.tokens && t.lamports == l.lamports
    ensures Covered(w, t, k, e)
  {
  }

  /** The terms are those given, within the bounds the program promises. */
  predicate TermsStored(e: Escrow, a: OpenArgs, seller: Key, now: I64) {
    && e.seller == seller && e.buyer == a.buyer && e.arbiter == a.arbiter && e.feeReceiver == a.feeReceiver
    && e.mint == a.mint && e.tradeId == a.tradeId && !e.frozen
    && e.seller != e.buyer && e.buyer != e.arbiter && e.arbiter != e.seller
    && e.total == a.total > 0 && e.fee == a.fee && 10 * e.fee <= e.total
    && e.openedAt == now && MIN_FALLBACK <= e.fallbackAt - now <= MAX_FALLBACK
  }

  /** The deposit was taken from the seller to the last lamport or token, and from nobody else. */
  ghost predicate DepositTaken(w: World, l: Ledger, t: Ledger, a: OpenArgs, accounts: seq<Meta>, k: Key)
    requires |accounts| >= 3
  {
    var seller, vault := accounts[0].key, w.findVault(k).0;
    if a.mint == NO_KEY then
      && t.tokens == l.tokens
      && Balance(t, k) == Max(Balance(l, k), w.rentEscrow + a.total)
      && Balance(t, seller) + Balance(t, k) == Balance(l, seller) + Balance(l, k)
      && forall x: Key :: x != k && x != seller ==> Balance(t, x) == Balance(l, x)
    else
      && |accounts| > 4 && accounts[4].key in l.tokens && vault !in l.tokens
      && l.tokens[accounts[4].key].owner == seller && l.tokens[accounts[4].key].amount >= a.total
      && (forall x: Key :: x != seller ==> Balance(t, x) >= Balance(l, x))
      && t.tokens == l.tokens[accounts[4].key := l.tokens[accounts[4].key].(
                                amount := l.tokens[accounts[4].key].amount - a.total)]
                             [vault := Token(a.mint, k, a.total)]
  }

  /** What opening settles. */
  lemma OpeningTerms(w: World, l: Ledger, a: OpenArgs, accounts: seq<Meta>, now: I64)
    requires Opened(w, l, a, accounts, now).Ok? && |accounts| >= 3 && accounts[0].key != accounts[1].key
    ensures var t, k := Opened(w, l, a, accounts, now).value, accounts[1].key;
            && accounts[0].signer && DepositTaken(w, l, t, a, accounts, k)
            && k in t.escrows && t.escrows == l.escrows[k := t.escrows[k]]
            && TermsStored(t.escrows[k], a, accounts[0].key, now)
  {
    OpenTouches(w, l, a, accounts, now);
    OpenStores(w, l, a, accounts, now);
    var held := OpenAddsOnly(w, l, a, accounts, now);
    DepositIsTaken(w, l, a, accounts, accounts[1].key);
    SameDeposit(w, l, held, Opened(w, l, a, accounts, now).value, a, accounts, accounts[1].key);
  }

  /** What is written. */
  lemma OpenStores(w: World, l: Ledger, a: OpenArgs, accounts: seq<Meta>, now: I64)
    requires Opened(w, l, a, accounts, now).Ok?
    ensures |accounts| >= 3 && accounts[0].signer
    ensures var t, k := Opened(w, l, a, accounts, now).value, accounts[1].key;
            k in t.escrows && TermsStored(t.escrows[k], a, accounts[0].key, now)
  {
    assert MayOpen(w, l, a, accounts).Ok?;
  }

  lemma DepositIsTaken(w: World, l: Ledger, a: OpenArgs, accounts: seq<Meta>, k: Key)
    requires |accounts| >= 3 && Deposited(w, l, a, accounts, k).Ok? && accounts[0].key != k
    ensures DepositTaken(w, l, Deposited(w, l, a, accounts, k).value.0, a, accounts, k)
  {
    if a.mint == NO_KEY {
      NativeDeposit(w, l, a, accounts, k);
    } else {
      TokenDeposit(w, l, a, accounts, k);
    }
  }

  lemma SameDeposit(w: World, l: Ledger, held: Ledger, t: Ledger, a: OpenArgs, accounts: seq<Meta>, k: Key)
    requires |accounts| >= 3 && DepositTaken(w, l, held, a, accounts, k)
    requires t.tokens == held.tokens && t.lamports == held.lamports
    ensures DepositTaken(w, l, t, a, accounts, k)
  {
    assert forall x: Key :: Balance(t, x) == Balance(held, x);
  }

  lemma NativeDeposit(w: World, l: Ledger, a: OpenArgs, accounts: seq<Meta>, k: Key)
    requires |accounts| >= 3 && Deposited(w, l, a, accounts, k).Ok? && accounts[0].key != k && a.mint == NO_KEY
    ensures DepositTaken(w, l, Deposited(w, l, a, accounts, k).value.0, a, accounts, k)
  {
    var need := Missing(l, k, w.rentEscrow + a.total);
    MovedConserves(l, accounts[0].key, k, need);
    forall x: Key ensures var t := Moved(l, accounts[0].key, k, need).value;
                          Balance(t, x) == if x == k then Balance(l, x) + need
                                           else if x == accounts[0].key then Balance(l, x) - need else Balance(l, x) {
      MovedBalances(l, accounts[0].key, k, need, x);
    }
  }

  lemma TokenDeposit(w: World, l: Ledger, a: OpenArgs, accounts: seq<Meta>, k: Key)
    requires |accounts| >= 3 && Deposited(w, l, a, accounts, k).Ok? && accounts[0].key != k && a.mint != NO_KEY
    ensures DepositTaken(w, l, Deposited(w, l, a, accounts, k).value.0, a, accounts, k)
  {
    var seller, vault := accounts[0].key, w.findVault(k).0;
    var made := Created(l, seller, k, w.rentEscrow).value;
    CreationSpares(l, seller, k, w.rentEscrow);
    CreationSpares(made, seller, vault, w.rentToken);
    VaultIsFunded(w, made, a, seller, accounts[4].key, k, vault);
  }

  // ----- freezing

  /** Only the buyer, in person or by signature, or the arbiter freezes an escrow, and nothing
      else about the ledger changes. */
  lemma WhoFreezes(w: World, l: Ledger, accounts: seq<Meta>, bySignature: bool, proof: Option<Proof>)
    requires Frozen(w, l, accounts, bySignature, proof).Ok?
    ensures var k, t := accounts[1].key, Frozen(w, l, accounts, bySignature, proof).value;
            && k in l.escrows && !l.escrows[k].frozen
            && t == l.(escrows := l.escrows[k := l.escrows[k].(frozen := true)])
            && (|| (accounts[0].signer && accounts[0].key in {l.escrows[k].buyer, l.escrows[k].arbiter})
                || proof == Some(Proof(k, l.escrows[k].buyer, ACTION_FREEZE)))
  {
  }

  lemma FreezeKeepsOk(w: World, l: Ledger, accounts: seq<Meta>, bySignature: bool, proof: Option<Proof>)
    requires LedgerOk(w, l) && Frozen(w, l, accounts, bySignature, proof).Ok?
    ensures SameSupplies(l, Frozen(w, l, accounts, bySignature, proof).value)
    ensures LedgerOk(w, Frozen(w, l, accounts, bySignature, proof).value)
  {
    var t := Frozen(w, l, accounts, bySignature, proof).value;
    TokensUntouched(l, t);
    StaysLimited(l, t);
    forall x | x in t.escrows ensures x !in t.tokens && EscrowOk(w, t, x, t.escrows[x]) {
      assert EscrowOk(w, l, x, l.escrows[x]);
    }
  }

  // ----- payouts

  /** What an account gains from a settlement in lamports. */
  function LamportsDue(l: Ledger, e: Escrow, k: Key, toBuyer: bool, x: Key): int {
    (if x == PartyPaid(e, toBuyer) then e.total - FeeDue(e, toBuyer) else 0) +
    (if x == e.feeReceiver then FeeDue(e, toBuyer) else 0) +
    (if x == e.seller then Balance(l, k) - e.total else 0) -
    (if x == k then Balance(l, k) else 0)
  }

  /** A lamport payout cannot fail: the deposit less the fee goes to the party paid, the fee to
      its receiver and what is left to the seller, to the last lamport. */
  lemma NativePayout(w: World, l: Ledger, e: Escrow, k: Key, toBuyer: bool, accounts: seq<Meta>)
    requires LedgerOk(w, l) && k in l.escrows && l.escrows[k] == e && IsNative(e) && NativePayees(e, toBuyer, accounts)
    ensures PaidOut(w, l, e, k, toBuyer, accounts).Ok?
    ensures forall x: Key :: Balance(PaidOut(w, l, e, k, toBuyer, accounts).value, x) ==
                             Balance(l, x) + LamportsDue(l, e, k, toBuyer, x)
  {
    assert EscrowOk(w, l, k, e);
    PaymentCovered(l, e, k, toBuyer, accounts);
    NativeKeepsSupplies(l, e, k, toBuyer, accounts);
    var paid := PaidNative(l, e, k, toBuyer, accounts).value;
    CoveredMoveSucceeds(paid, k, e.seller, Balance(paid, k));
    forall x: Key
      ensures Balance(PaidOut(w, l, e, k, toBuyer, accounts).value, x) ==
              Balance(l, x) + LamportsDue(l, e, k, toBuyer, x)
    {
      NativeShare(l, e, k, toBuyer, accounts, x);
      NativeShare(l, e, k, toBuyer, accounts, k);
      MovedBalances(paid, k, e.seller, Balance(paid, k), x);
    }
  }

  lemma PaymentCovered(l: Ledger, e: Escrow, k: Key, toBuyer: bool, accounts: seq<Meta>)
    requires NativePayees(e, toBuyer, accounts) && e.fee <= e.total <= Balance(l, k) && Supply(l) <= MAX_U64
    requires Apart(k, e.seller, e.buyer, e.feeReceiver)
    ensures PaidNative(l, e, k, toBuyer, accounts).Ok?
  {
    var fee := FeeDue(e, toBuyer);
    var share := e.total - fee;
    CoveredMoveSucceeds(l, k, accounts[3].key, share);
    MovedConserves(l, k, accounts[3].key, share);
    MovedBalances(l, k, accounts[3].key, share, k);
    if fee > 0 {
      CoveredMoveSucceeds(Moved(l, k, accounts[3].key, share).value, k, accounts[4].key, fee);
    }
  }

  /** Balances once the party and the fee receiver are paid. */
  lemma NativeShare(l: Ledger, e: Escrow, k: Key, toBuyer: bool, accounts: seq<Meta>, x: Key)
    requires NativePayees(e, toBuyer, accounts) && PaidNative(l, e, k, toBuyer, accounts).Ok?
    requires Apart(k, e.seller, e.buyer, e.feeReceiver) && e.fee <= e.total
    ensures Balance(PaidNative(l, e, k, toBuyer, accounts).value, x) ==
            Balance(l, x) + (if x == PartyPaid(e, toBuyer) then e.total - FeeDue(e, toBuyer) else 0) +
              (if x == e.feeReceiver then FeeDue(e, toBuyer) else 0) - (if x == k then e.total else 0)
  {
    var fee := FeeDue(e, toBuyer);
    MovedBalances(l, k, accounts[3].key, e.total - fee, x);
    if fee > 0 {
      MovedBalances(Moved(l, k, accounts[3].key, e.total - fee).value, k, accounts[4].key, fee, x);
    }
  }

  /** What a token account gains from a settlement. */
  function TokensDue(l: Ledger, e: Escrow, toBuyer: bool, accounts: seq<Meta>, x: Key): nat
    requires HasVault(l, toBuyer, accounts) && FeeDue(e, toBuyer) <= l.tokens[VaultOf(toBuyer, accounts)].amount
  {
    var fee := FeeDue(e, toBuyer);
    (if x == accounts[3].key then l.tokens[VaultOf(toBuyer, accounts)].amount - fee else 0) +
    (if fee > 0 && x == accounts[4].key then fee else 0)
  }

  /** The setting of a token payout: the vault is the escrow's and the payees are not it. */
  predicate TokenPayout(w: World, l: Ledger, e: Escrow, k: Key, toBuyer: bool, accounts: seq<Meta>) {
    && !IsNative(e) && EscrowOk(w, l, k, e) && VaultGiven(w, l, e, k, toBuyer, accounts)
    && TokenPayees(l, e, toBuyer, accounts)
  }

  lemma ShareArrives(w: World, l: Ledger, e: Escrow, k: Key, toBuyer: bool, accounts: seq<Meta>)
    requires Limited(l) && TokenPayout(w, l, e, k, toBuyer, accounts)
    ensures ShareSent(l, e, k, toBuyer, accounts).Ok?
    ensures var vault, t := VaultOf(toBuyer, accounts), ShareSent(l, e, k, toBuyer, accounts).value;
            && vault != accounts[3].key && t.tokens.Keys == l.tokens.Keys && t.lamports == l.lamports
            && t.tokens[vault] == Token(e.mint, k, FeeDue(e, toBuyer))
            && forall x :: x in l.tokens && x != vault ==>
                 t.tokens[x] == l.tokens[x].(amount := l.tokens[x].amount +
                   if x == accounts[3].key then l.tokens[vault].amount - FeeDue(e, toBuyer) else 0)
  {
    PayoutAccounts(w, l, e, k, toBuyer, accounts);
    ShareMoves(l, e, k, toBuyer, accounts);
  }

  lemma PayoutAccounts(w: World, l: Ledger, e: Escrow, k: Key, toBuyer: bool, accounts: seq<Meta>)
    requires TokenPayout(w, l, e, k, toBuyer, accounts)
    ensures var vault := VaultOf(toBuyer, accounts);
            && vault in l.tokens && accounts[3].key in l.tokens && vault != accounts[3].key
            && l.tokens[vault].owner == k && l.tokens[vault].mint == e.mint == l.tokens[accounts[3].key].mint
            && FeeDue(e, toBuyer) <= l.tokens[vault].amount
  {
  }

  lemma ShareMoves(l: Ledger, e: Escrow, k: Key, toBuyer: bool, accounts: seq<Meta>)
    requires Limited(l) && HasVault(l, toBuyer, accounts) && accounts[3].key in l.tokens
    requires var vault := VaultOf(toBuyer, accounts);
             && vault != accounts[3].key && FeeDue(e, toBuyer) <= l.tokens[vault].amount
             && l.tokens[vault].owner == k && l.tokens[vault].mint == e.mint == l.tokens[accounts[3].key].mint
    ensures ShareSent(l, e, k, toBuyer, accounts).Ok?
    ensures var vault, t := VaultOf(toBuyer, accounts), ShareSent(l, e, k, toBuyer, accounts).value;
            && t.tokens.Keys == l.tokens.Keys && t.lamports == l.lamports
            && t.tokens[vault] == Token(e.mint, k, FeeDue(e, toBuyer))
            && forall x :: x in l.tokens && x != vault ==>
                 t.tokens[x] == l.tokens[x].(amount := l.tokens[x].amount +
                   if x == accounts[3].key then l.tokens[vault].amount - FeeDue(e, toBuyer) else 0)
  {
    var vault := VaultOf(toBuyer, accounts);
    TokensMoveOver(l, vault, accounts[3].key, e.mint, l.tokens[vault].amount - FeeDue(e, toBuyer), k);
  }

  /** Tokens of a mint whose supply fits in 64 bits go over to another account in full. */
  lemma TokensMoveOver(l: Ledger, from: Key, to: Key, mint: Key, amount: nat, owner: Key)
    requires Limited(l) && from != to && from in l.tokens && to in l.tokens && amount <= l.tokens[from].amount
    requires l.tokens[from].mint == mint == l.tokens[to].mint && l.tokens[from].owner == owner
    ensures var r := TokensMoved(l, from, to, mint, amount, owner);
            && r.Ok? && r.value.tokens.Keys == l.tokens.Keys && r.value.lamports == l.lamports
            && forall x :: x in l.tokens ==>
                 r.value.tokens[x] == l.tokens[x].(
                   amount := if x == from then l.tokens[x].amount - amount
                             else l.tokens[x].amount + if x == to then amount else 0)
  {
    TokenPairWithinSupply(l, from, to, mint);
  }

  lemma FeeArrives(l: Ledger, e: Escrow, k: Key, vault: Key, fee: U64, accounts: seq<Meta>)
    requires Limited(l) && vault in l.tokens && l.tokens[vault] == Token(e.mint, k, fee) && vault != e.seller
    requires fee > 0 ==>
               && |accounts| > 4 && accounts[4].key != vault
               && accounts[4].key in l.tokens && l.tokens[accounts[4].key].mint == e.mint
    ensures FeePaid(l, e, k, vault, fee, accounts).Ok?
    ensures var t := FeePaid(l, e, k, vault, fee, accounts).value;
            && t.tokens.Keys == l.tokens.Keys - {vault}
            && (forall x: Key :: Balance(t, x) ==
                  if x == vault then 0 else Balance(l, x) + if x == e.seller then Balance(l, vault) else 0)
            && forall x :: x in t.tokens ==>
                 t.tokens[x] == l.tokens[x].(
                   amount := l.tokens[x].amount + if fee > 0 && x == accounts[4].key then fee else 0)
  {
    var paid := l;
    if fee > 0 {
      TokenPairWithinSupply(l, vault, accounts[4].key, e.mint);
      paid := TokensMoved(l, vault, accounts[4].key, e.mint, fee, k).value;
    }
    CoveredMoveSucceeds(paid, vault, e.seller, Balance(paid, vault));
    MovedConserves(paid, vault, e.seller, Balance(paid, vault));
    forall x: Key ensures Balance(Moved(paid, vault, e.seller, Balance(paid, vault)).value, x) ==
                          if x == vault then 0 else Balance(l, x) + if x == e.seller then Balance(l, vault) else 0 {
      MovedBalances(paid, vault, e.seller, Balance(paid, vault), x);
    }
  }

  lemma TokensArrive(w: World, l: Ledger, e: Escrow, k: Key, toBuyer: bool, accounts: seq<Meta>)
    requires Limited(l) && TokenPayout(w, l, e, k, toBuyer, accounts)
    ensures PaidTokens(l, e, k, toBuyer, accounts).Ok?
    ensures var vault, t := VaultOf(toBuyer, accounts), PaidTokens(l, e, k, toBuyer, accounts).value;
            && t.tokens.Keys == l.tokens.Keys - {vault}
            && (forall x :: x in t.tokens ==>
                  t.tokens[x] == l.tokens[x].(amount := l.tokens[x].amount + TokensDue(l, e, toBuyer, accounts, x)))
            && (forall x: Key :: Balance(t, x) ==
                  if x == vault then 0 else Balance(l, x) + if x == e.seller then Balance(l, vault) else 0)
  {
    ShareArrives(w, l, e, k, toBuyer, accounts);
    ShareKeepsSupplies(l, e, k, toBuyer, accounts);
    var sent := ShareSent(l, e, k, toBuyer, accounts).value;
    StaysLimited(l, sent);
    FeeArrives(sent, e, k, VaultOf(toBuyer, accounts), FeeDue(e, toBuyer), accounts);
  }

  /** A token payout cannot fail: the vault is emptied into the payees' accounts and closed,
      and its lamports and the escrow's go to the seller. */
  lemma TokenPayoutArrives(w: World, l: Ledger, e: Escrow, k: Key, toBuyer: bool, accounts: seq<Meta>)
    requires Limited(l) && TokenPayout(w, l, e, k, toBuyer, accounts) && k !in l.tokens
    ensures PaidOut(w, l, e, k, toBuyer, accounts).Ok?
    ensures var vault, t := VaultOf(toBuyer, accounts), PaidOut(w, l, e, k, toBuyer, accounts).value;
            && t.tokens.Keys == l.tokens.Keys - {vault}
            && (forall x :: x in t.tokens ==>
                  t.tokens[x] == l.tokens[x].(amount := l.tokens[x].amount + TokensDue(l, e, toBuyer, accounts, x)))
            && (forall x: Key :: Balance(t, x) ==
                  if x == vault || x == k then 0
                  else Balance(l, x) + if x == e.seller then Balance(l, vault) + Balance(l, k) else 0)
  {
    TokensArrive(w, l, e, k, toBuyer, accounts);
    TokensKeepSupplies(l, e, k, toBuyer, accounts);
    var paid := PaidTokens(l, e, k, toBuyer, accounts).value;
    CoveredMoveSucceeds(paid, k, e.seller, Balance(paid, k));
    MovedConserves(paid, k, e.seller, Balance(paid, k));
    forall x: Key ensures Balance(PaidOut(w, l, e, k, toBuyer, accounts).value, x) ==
                          if x == VaultOf(toBuyer, accounts) || x == k then 0
                          else if x == e.seller
                          then Balance(l, x) + Balance(l, VaultOf(toBuyer, accounts)) + Balance(l, k)
                          else Balance(l, x) {
      MovedBalances(paid, k, e.seller, Balance(paid, k), x);
    }
  }

  // ----- who may settle

  /** The settlement the step makes: which escrow, its terms, and who is paid. */
  ghost predicate Settles(
    w: World, l: Ledger, accounts: seq<Meta>, act: Act, proof: Option<Proof>, now: I64, e: Escrow, toBuyer: bool)
  {
    && Settled(w, l, accounts, act, proof, now).Ok? && accounts[1].key in l.escrows && e == l.escrows[accounts[1].key]
    && Direction(w, e, accounts[1].key, accounts[0], act, proof, now) == Ok(toBuyer)
  }

  predicate SignedBy(m: Meta, who: Key) {
    m.signer && m.key == who
  }

  /** Frozen, or before the fallback time, the seller is refunded only by an action of the buyer
      or the arbiter; the buyer is only ever paid by an action of the seller or the arbiter. */
  lemma WhoSettles(
    w: World, l: Ledger, accounts: seq<Meta>, act: Act, proof: Option<Proof>, now: I64, e: Escrow, toBuyer: bool)
    requires Settles(w, l, accounts, act, proof, now, e, toBuyer)
    ensures !toBuyer && (e.frozen || now < e.fallbackAt) ==>
              || SignedBy(accounts[0], e.buyer) || SignedBy(accounts[0], e.arbiter)
              || proof == Some(Proof(accounts[1].key, e.buyer, ACTION_CANCEL))
    ensures toBuyer ==> SignedBy(accounts[0], e.seller) || SignedBy(accounts[0], e.arbiter)
  {
  }

  // ----- runs

  /** A transaction of the program, or one outside it. */
  datatype Step =
    | Call(ix: Instruction, accounts: seq<Meta>, now: I64)
    | Pay(from: Key, to: Key, amount: nat)
    | PayTokens(from: Key, to: Key, mint: Key, amount: nat, authority: Key)
    | NewTokenAccount(key: Key, mint: Key, owner: Key)

  function Tried(w: World, l: Ledger, step: Step): Outcome {
    match step
    case Call(ix, accounts, now) => Specified(w, l, ix, accounts, now)
    case Pay(from, to, amount) => if Unused(l, from) then Moved(l, from, to, amount) else Err(Runtime)
    case PayTokens(from, to, mint, amount, authority) => TokensMoved(l, from, to, mint, amount, authority)
    case NewTokenAccount(k, mint, owner) =>
      if Unused(l, k) then Ok(l.(tokens := l.tokens[k := Token(mint, owner, 0)])) else Err(Runtime)
  }

  /** A failed transaction changes nothing. */
  function After(w: World, l: Ledger, step: Step): (t: Ledger)
    ensures step.Call? ==> t == Committed(w, l, step.ix, step.accounts, step.now)
  {
    var r := Tried(w, l, step);
    if r.Ok? then r.value else l
  }

  /** Addresses derived by the program do not sign: no transaction outside it spends what an
      escrow owns, and the parties to an escrow differ from its own addresses. */
  predicate Fair(w: World, l: Ledger, step: Step) {
    match step
    case Call(ix, accounts, _) =>
      ix.Open? && |accounts| >= 2 ==>
        && Apart(accounts[1].key, accounts[0].key, ix.args.buyer, ix.args.feeReceiver)
        && accounts[0].key !in l.escrows && accounts[0].key != w.findVault(accounts[1].key).0
    case PayTokens(_, _, _, _, authority) => authority !in l.escrows
    case _ => true
  }

  lemma PayKeepsOk(w: World, l: Ledger, from: Key, to: Key, amount: nat)
    requires LedgerOk(w, l) && Unused(l, from) && Moved(l, from, to, amount).Ok?
    ensures LedgerOk(w, Moved(l, from, to, amount).value) && SameSupplies(l, Moved(l, from, to, amount).value)
  {
    var t := Moved(l, from, to, amount).value;
    MoveKeepsSupplies(l, from, to, amount);
    StaysLimited(l, t);
    MoveSpares(l, from, to, amount, from);
    forall x | x in t.escrows ensures x !in t.tokens && EscrowOk(w, t, x, t.escrows[x]) {
      SparedStaysOk(w, l, t, from, from, x);
    }
  }

  lemma PayTokensKeepsOk(w: World, l: Ledger, from: Key, to: Key, mint: Key, amount: nat, authority: Key)
    requires LedgerOk(w, l) && authority !in l.escrows && TokensMoved(l, from, to, mint, amount, authority).Ok?
    ensures var t := TokensMoved(l, from, to, mint, amount, authority).value; LedgerOk(w, t) && SameSupplies(l, t)
  {
    var t := TokensMoved(l, from, to, mint, amount, authority).value;
    TokenMoveKeepsSupplies(l, from, to, mint, amount, authority);
    StaysLimited(l, t);
    TokenMoveSpares(l, from, to, mint, amount, authority, from);
    forall x | x in t.escrows ensures x !in t.tokens && EscrowOk(w, t, x, t.escrows[x]) {
      SparedStaysOk(w, l, t, from, from, x);
    }
  }

  lemma NewTokenAccountKeepsOk(w: World, l: Ledger, k: Key, mint: Key, owner: Key)
    requires LedgerOk(w, l) && Unused(l, k)
    ensures var t := l.(tokens := l.tokens[k := Token(mint, owner, 0)]); LedgerOk(w, t) && SameSupplies(l, t)
  {
    var t := l.(tokens := l.tokens[k := Token(mint, owner, 0)]);
    forall m: Key ensures TokenSupply(t, m) == TokenSupply(l, m) {
      AddingEmptyConserves(l, k, Token(mint, owner, 0), m);
    }
    StaysLimited(l, t);
    forall x | x in t.escrows ensures x !in t.tokens && EscrowOk(w, t, x, t.escrows[x]) {
      assert EscrowOk(w, l, x, l.escrows[x]);
    }
  }

  lemma CallKeepsOk(w: World, l: Ledger, ix: Instruction, accounts: seq<Meta>, now: I64)
    requires WorldOk(w) && LedgerOk(w, l) && Fair(w, l, Call(ix, accounts, now))
    requires Specified(w, l, ix, accounts, now).Ok?
    ensures var t := Specified(w, l, ix, accounts, now).value; LedgerOk(w, t) && SameSupplies(l, t)
  {
    match ix
    case Open(a) =>
      OpenKeepsOk(w, l, a, accounts, now);
      OpenKeepsSupplies(w, l, a, accounts, now);
    case Freeze(bySignature, proof) => FreezeKeepsOk(w, l, accounts, bySignature, proof);
    case Settle(act, proof) =>
      SettleKeepsOk(w, l, accounts, act, proof, now);
      SettleKeepsSupplies(w, l, accounts, act, proof, now);
  }

  lemma StepKeepsOk(w: World, l: Ledger, step: Step)
    requires WorldOk(w) && LedgerOk(w, l) && Fair(w, l, step)
    ensures LedgerOk(w, After(w, l, step)) && SameSupplies(l, After(w, l, step))
  {
    if Tried(w, l, step).Ok? {
      match step
      case Call(ix, accounts, now) => CallKeepsOk(w, l, ix, accounts, now);
      case Pay(from, to, amount) => PayKeepsOk(w, l, from, to, amount);
      case PayTokens(from, to, mint, amount, authority) => PayTokensKeepsOk(w, l, from, to, mint, amount, authority);
      case NewTokenAccount(k, mint, owner) => NewTokenAccountKeepsOk(w, l, k, mint, owner);
    }
  }

  function LedgerAfter(w: World, start: Ledger, steps: seq<Step>): Ledger {
    if steps == [] then start
    else After(w, LedgerAfter(w, start, steps[..|steps| - 1]), steps[|steps| - 1])
  }

  ghost predicate FairRun(w: World, start: Ledger, steps: seq<Step>) {
    if steps == [] then WorldOk(w) && start.escrows == map[] && Limited(start)
    else
      var k := |steps| - 1;
      FairRun(w, start, steps[..k]) && Fair(w, LedgerAfter(w, start, steps[..k]), steps[k])
  }

  /** Conservation and coverage on every run: lamports and every mint's tokens are conserved,
      and every open escrow is covered. */
  lemma {:induction false} RunConserves(w: World, start: Ledger, steps: seq<Step>)
    requires FairRun(w, start, steps)
    ensures SameSupplies(start, LedgerAfter(w, start, steps)) && LedgerOk(w, LedgerAfter(w, start, steps)) && WorldOk(w)
  {
    if steps != [] {
      var k := |steps| - 1;
      RunConserves(w, start, steps[..k]);
      StepKeepsOk(w, LedgerAfter(w, start, steps[..k]), steps[k]);
    }
  }

  /** On every run, an open escrow can be settled by whoever may settle it: with the right
      accounts no payout fails. */
  lemma PayoutsNeverFail(
    w: World, start: Ledger, steps: seq<Step>,
    accounts: seq<Meta>, act: Act, proof: Option<Proof>, now: I64, toBuyer: bool)
    requires FairRun(w, start, steps) && |accounts| >= 2 && accounts[1].writable
    requires var l, k := LedgerAfter(w, start, steps), accounts[1].key;
             && k in l.escrows && Direction(w, l.escrows[k], k, accounts[0], act, proof, now) == Ok(toBuyer)
             && Payable(w, l, l.escrows[k], k, toBuyer, accounts)
             && (!IsNative(l.escrows[k]) ==> TokenPayees(l, l.escrows[k], toBuyer, accounts))
    ensures Settled(w, LedgerAfter(w, start, steps), accounts, act, proof, now).Ok?
  {
    var l, k := LedgerAfter(w, start, steps), accounts[1].key;
    var e := l.escrows[k];
    RunConserves(w, start, steps);
    assert EscrowOk(w, l, k, e);
    if IsNative(e) {
      NativePayout(w, l, e, k, toBuyer, accounts);
    } else {
      TokenPayoutArrives(w, l, e, k, toBuyer, accounts);
    }
  }

  // ----- each opening is settled at most once

  function OpensAt(w: World, l: Ledger, step: Step, k: Key): nat {
    if step.Call? && step.ix.Open? && Tried(w, l, step).Ok? && |step.accounts| >= 2 && step.accounts[1].key == k
    then 1 else 0
  }

  function SettlesAt(w: World, l: Ledger, step: Step, k: Key): nat {
    if step.Call? && step.ix.Settle? && Tried(w, l, step).Ok? && |step.accounts| >= 2 && step.accounts[1].key == k
    then 1 else 0
  }

  function IsOpen(l: Ledger, k: Key): nat {
    if k in l.escrows then 1 else 0
  }

  /** Only opening and settling change which escrows are open, and an open escrow keeps its
      terms; it can be frozen but not thawed. */
  lemma StepKeepsTerms(w: World, l: Ledger, step: Step, k: Key)
    ensures var t := After(w, l, step);
            && IsOpen(t, k) == IsOpen(l, k) + OpensAt(w, l, step, k) - SettlesAt(w, l, step, k)
            && (k in l.escrows && k in t.escrows ==>
                  t.escrows[k] == l.escrows[k] || t.escrows[k] == l.escrows[k].(frozen := true))
  {
    if Tried(w, l, step).Ok? {
      match step
      case Call(Open(a), accounts, now) => OpenTouches(w, l, a, accounts, now);
      case Call(Settle(act, proof), accounts, now) => SettleTouches(w, l, accounts, act, proof, now);
      case _ =>
    }
  }

  lemma OpenTouches(w: World, l: Ledger, a: OpenArgs, accounts: seq<Meta>, now: I64)
    requires Opened(w, l, a, accounts, now).Ok?
    ensures var k, t := accounts[1].key, Opened(w, l, a, accounts, now).value;
            k !in l.escrows && k in t.escrows && t.escrows == l.escrows[k := t.escrows[k]]
  {
    var held := OpenAddsOnly(w, l, a, accounts, now);
    DepositKeepsSupplies(w, l, a, accounts, accounts[1].key);
  }

  lemma SettleTouches(w: World, l: Ledger, accounts: seq<Meta>, act: Act, proof: Option<Proof>, now: I64)
    requires Settled(w, l, accounts, act, proof, now).Ok?
    ensures var k := accounts[1].key;
            k in l.escrows && Settled(w, l, accounts, act, proof, now).value.escrows == l.escrows - {k}
  {
    var k, e := accounts[1].key, Load(w, l, accounts[1]).value;
    var toBuyer := Direction(w, e, k, accounts[0], act, proof, now).value;
    var moved := AllMoved(w, l, e, k, toBuyer, accounts);
  }

  function AllOpens(w: World, start: Ledger, steps: seq<Step>, k: Key): nat {
    if steps == [] then 0
    else
      var n := |steps| - 1;
      AllOpens(w, start, steps[..n], k) + OpensAt(w, LedgerAfter(w, start, steps[..n]), steps[n], k)
  }

  function AllSettles(w: World, start: Ledger, steps: seq<Step>, k: Key): nat {
    if steps == [] then 0
    else
      var n := |steps| - 1;
      AllSettles(w, start, steps[..n], k) + SettlesAt(w, LedgerAfter(w, start, steps[..n]), steps[n], k)
  }

  /** Over every run an escrow has been settled exactly as often as it was opened, less one
      while it is open. */
  lemma {:induction false} SettledOncePerOpening(w: World, start: Ledger, steps: seq<Step>, k: Key)
    requires start.escrows == map[]
    ensures AllOpens(w, start, steps, k) == AllSettles(w, start, steps, k) + IsOpen(LedgerAfter(w, start, steps), k)
  {
    if steps != [] {
      var n := |steps| - 1;
      SettledOncePerOpening(w, start, steps[..n], k);
      StepKeepsTerms(w, LedgerAfter(w, start, steps[..n]), steps[n], k);
    }
  }

  /** An escrow that is not settled in between keeps its terms, and a freeze is for good. */
  lemma {:induction false} TermsStay(w: World, start: Ledger, steps: seq<Step>, i: nat, k: Key)
    requires i <= |steps| && k in LedgerAfter(w, start, steps[..i]).escrows
    requires AllSettles(w, start, steps, k) == AllSettles(w, start, steps[..i], k)
    ensures var early, late := LedgerAfter(w, start, steps[..i]), LedgerAfter(w, start, steps);
            && k in late.escrows && (early.escrows[k].frozen ==> late.escrows[k].frozen)
            && late.escrows[k].(frozen := false) == early.escrows[k].(frozen := false)
  {
    if i == |steps| {
      assert steps[..i] == steps;
    } else {
      var n := |steps| - 1;
      assert steps[..n][..i] == steps[..i];
      SettlesGrow(w, start, steps[..n], i, k);
      TermsStay(w, start, steps[..n], i, k);
      StepKeepsTerms(w, LedgerAfter(w, start, steps[..n]), steps[n], k);
    }
  }

  lemma {:induction false} SettlesGrow(w: World, start: Ledger, steps: seq<Step>, i: nat, k: Key)
    requires i <= |steps|
    ensures AllSettles(w, start, steps[..i], k) <= AllSettles(w, start, steps, k)
  {
    if i == |steps| {
      assert steps[..i] == steps;
    } else {
      var n := |steps| - 1;
      assert steps[..n][..i] == steps[..i];
      SettlesGrow(w, start, steps[..n], i, k);
    }
  }

  /** After a freeze: once an escrow was seen frozen on a run, the settlement that ends it, with
      whatever terms it was opened on, refunds the seller only by an action of the buyer or the
      arbiter. */
  lemma RefundAfterFreeze(
    w: World, start: Ledger, steps: seq<Step>, i: nat,
    accounts: seq<Meta>, act: Act, proof: Option<Proof>, now: I64, e: Escrow)
    requires i <= |steps| && |accounts| >= 2
    requires var k, early := accounts[1].key, LedgerAfter(w, start, steps[..i]);
             && k in early.escrows && early.escrows[k].frozen
             && AllSettles(w, start, steps, k) == AllSettles(w, start, steps[..i], k)
    requires Settles(w, LedgerAfter(w, start, steps), accounts, act, proof, now, e, false)
    ensures var terms := LedgerAfter(w, start, steps[..i]).escrows[accounts[1].key];
            || SignedBy(accounts[0], terms.buyer) || SignedBy(accounts[0], terms.arbiter)
            || proof == Some(Proof(accounts[1].key, terms.buyer, ACTION_CANCEL))
  {
    TermsStay(w, start, steps, i, accounts[1].key);
    WhoSettles(w, LedgerAfter(w, start, steps), accounts, act, proof, now, e, false);
  }
}

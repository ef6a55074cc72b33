/**
 The escrow program as it runs: account balances and data changed in place, step by step, and
 a transaction that is rolled back when an instruction fails. Proved against EscrowProgram.
 */
module EscrowEngine {
  import opened Common
  import opened EscrowCodec
  import opened EscrowLedger
  import opened EscrowProgram

  type Done = Result<(), EscrowError>

  /** The call succeeded and left what the specification gives, or failed with its error. */
  predicate Did(spec: Outcome, done: Done, after: Ledger) {
    match done
    case Ok(_) => spec == Ok(after)
    case Err(e) => spec == Err(e)
  }

  class Accounts {
    const w: World
    var lamports: map<Key, nat>
    var tokens: map<Key, Token>
    var escrows: map<Key, Escrow>

    function View(): Ledger
      reads this
    {
      Ledger(lamports, tokens, escrows)
    }

    constructor (w: World, l: Ledger)
      ensures this.w == w && View() == l
    {
      this.w := w;
      lamports, tokens, escrows := l.lamports, l.tokens, l.escrows;
    }

    method MoveLamports(from: Key, to: Key, amount: nat) returns (done: Done)
      modifies this
      ensures Did(Moved(old(View()), from, to, amount), done, View())
    {
      if amount == 0 || from == to {
        return Ok(());
      }
      var src, dst := Balance(View(), from), Balance(View(), to);
      if src < amount {
        return Err(BadAmount);
      }
      lamports := lamports[from := src - amount];
      if dst + amount > MAX_U64 {
        return Err(BadAmount);
      }
      lamports := lamports[to := dst + amount];
      return Ok(());
    }

    method CreatePda(payer: Key, target: Key, required: nat) returns (done: Done)
      modifies this
      ensures Did(Created(old(View()), payer, target, required), done, View())
    {
      var need := Missing(View(), target, required);
      if need > 0 && !Unused(View(), payer) {
        return Err(Runtime);
      }
      var moved := MoveLamports(payer, target, need);
      return if moved.Err? then Err(Runtime) else moved;
    }

    method TransferTokens(from: Key, to: Key, mint: Key, amount: nat, authority: Key) returns (done: Done)
      modifies this
      ensures Did(TokensMoved(old(View()), from, to, mint, amount, authority), done, View())
    {
      if from !in tokens || to !in tokens || tokens[from].mint != mint || tokens[to].mint != mint ||
         tokens[from].owner != authority || tokens[from].amount < amount {
        return Err(Runtime);
      }
      if from == to {
        return Ok(());
      }
      if tokens[to].amount + amount > MAX_U64 {
        return Err(Runtime);
      }
      tokens := tokens[from := tokens[from].(amount := tokens[from].amount - amount)];
      tokens := tokens[to := tokens[to].(amount := tokens[to].amount + amount)];
      return Ok(());
    }

    method CloseTokenAccount(k: Key, to: Key, authority: Key) returns (done: Done)
      modifies this
      ensures Did(Closed(old(View()), k, to, authority), done, View())
    {
      if k !in tokens || tokens[k].amount != 0 || tokens[k].owner != authority || k == to {
        return Err(Runtime);
      }
      var moved := MoveLamports(k, to, Balance(View(), k));
      if moved.Err? {
        return Err(Runtime);
      }
      tokens := tokens - {k};
      return Ok(());
    }

    // ----- opening

    method FundVault(a: OpenArgs, seller: Key, source: Key, escrow: Key, vault: Key) returns (done: Done)
      modifies this
      ensures Did(VaultFunded(w, old(View()), a, seller, source, escrow, vault), done, View())
    {
      done := CreatePda(seller, vault, w.rentToken);
      if done.Err? {
        return;
      }
      tokens := tokens[vault := Token(a.mint, escrow, 0)];
      done := TransferTokens(source, vault, a.mint, a.total, seller);
    }

    method Deposit(a: OpenArgs, accounts: seq<Meta>, escrow: Key) returns (r: Result<Byte, EscrowError>)
      requires |accounts| >= 3
      modifies this
      ensures match r
              case Ok(vaultBump) => Deposited(w, old(View()), a, accounts, escrow) == Ok((View(), vaultBump))
              case Err(e) => Deposited(w, old(View()), a, accounts, escrow) == Err(e)
    {
      var native := a.mint == NO_KEY;
      var made := CreatePda(accounts[0].key, escrow, w.rentEscrow + if native then a.total else 0);
      if made.Err? {
        return Err(made.error);
      }
      if native {
        return Ok(0);
      }
      var at := MayVault(w, View(), a, accounts, escrow);
      if at.Err? {
        return Err(at.error);
      }
      var funded := FundVault(a, accounts[0].key, accounts[4].key, escrow, at.value.0);
      return if funded.Err? then Err(funded.error) else Ok(at.value.1);
    }

    method OpenEscrow(a: OpenArgs, accounts: seq<Meta>, now: I64) returns (done: Done)
      modifies this
      ensures Did(Opened(w, old(View()), a, accounts, now), done, View())
    {
      var at := MayOpen(w, View(), a, accounts);
      if at.Err? {
        return Err(at.error);
      }
      var vaultBump := Deposit(a, accounts, at.value.0);
      if vaultBump.Err? {
        return Err(vaultBump.error);
      }
      var e := EscrowOf(a, accounts[0].key, at.value.1, vaultBump.value, now);
      if e.Err? {
        return Err(e.error);
      }
      escrows := escrows[at.value.0 := e.value];
      return Ok(());
    }

    method FreezeEscrow(accounts: seq<Meta>, bySignature: bool, proof: Option<Proof>) returns (done: Done)
      modifies this
      ensures Did(Frozen(w, old(View()), accounts, bySignature, proof), done, View())
    {
      if |accounts| < 2 {
        return Err(MissingAccounts);
      }
      var actor, at := accounts[0], accounts[1];
      var loaded := Load(w, View(), at);
      if loaded.Err? {
        return Err(loaded.error);
      }
      var e := loaded.value;
      if bySignature {
        var refused := Attested(w, actor, proof, at.key, e.buyer, ACTION_FREEZE);
        if refused.Some? {
          return Err(refused.value);
        }
      } else if !actor.signer || (actor.key != e.buyer && actor.key != e.arbiter) {
        return Err(NotAllowed);
      }
      if e.frozen {
        return Err(NotAllowed);
      }
      escrows := escrows[at.key := e.(frozen := true)];
      return Ok(());
    }

    // ----- settling

    method PayNative(e: Escrow, escrow: Key, toBuyer: bool, accounts: seq<Meta>) returns (done: Done)
      requires NativePayees(e, toBuyer, accounts)
      modifies this
      ensures Did(PaidNative(old(View()), e, escrow, toBuyer, accounts), done, View())
    {
      var fee := FeeDue(e, toBuyer);
      if fee > e.total {
        return Err(Runtime);
      }
      done := MoveLamports(escrow, accounts[3].key, e.total - fee);
      if done.Ok? && fee > 0 {
        done := MoveLamports(escrow, accounts[4].key, fee);
      }
    }

    method PayFee(e: Escrow, escrow: Key, vault: Key, fee: U64, accounts: seq<Meta>) returns (done: Done)
      requires fee > 0 ==> |accounts| > 4
      modifies this
      ensures Did(FeePaid(old(View()), e, escrow, vault, fee, accounts), done, View())
    {
      if fee > 0 {
        done := TransferTokens(vault, accounts[4].key, e.mint, fee, escrow);
        if done.Err? {
          return;
        }
      }
      done := CloseTokenAccount(vault, e.seller, escrow);
    }

    method PayTokens(e: Escrow, escrow: Key, toBuyer: bool, accounts: seq<Meta>) returns (done: Done)
      requires HasVault(View(), toBuyer, accounts)
      modifies this
      ensures Did(PaidTokens(old(View()), e, escrow, toBuyer, accounts), done, View())
    {
      var vault, fee := VaultOf(toBuyer, accounts), FeeDue(e, toBuyer);
      var held := tokens[vault].amount;
      if held < e.total {
        return Err(BadAmount);
      }
      if !TokenPayees(View(), e, toBuyer, accounts) {
        return Err(BadAccount);
      }
      if fee > held {
        return Err(Runtime);
      }
      done := TransferTokens(vault, accounts[3].key, e.mint, held - fee, escrow);
      if done.Ok? {
        done := PayFee(e, escrow, vault, fee, accounts);
      }
    }

    method PayOut(e: Escrow, escrow: Key, toBuyer: bool, accounts: seq<Meta>) returns (done: Done)
      modifies this
      ensures Did(PaidOut(w, old(View()), e, escrow, toBuyer, accounts), done, View())
    {
      if !Payable(w, View(), e, escrow, toBuyer, accounts) {
        return Err(Unpayable(e, toBuyer, accounts));
      }
      if IsNative(e) {
        done := PayNative(e, escrow, toBuyer, accounts);
      } else {
        done := PayTokens(e, escrow, toBuyer, accounts);
      }
      if done.Err? {
        return;
      }
      done := MoveLamports(escrow, e.seller, Balance(View(), escrow));
      if done.Ok? {
        escrows := escrows - {escrow};
      }
    }

    method SettleEscrow(accounts: seq<Meta>, act: Act, proof: Option<Proof>, now: I64) returns (done: Done)
      modifies this
      ensures Did(Settled(w, old(View()), accounts, act, proof, now), done, View())
    {
      if |accounts| < 2 {
        return Err(MissingAccounts);
      }
      var loaded := Load(w, View(), accounts[1]);
      if loaded.Err? {
        return Err(loaded.error);
      }
      var to := Direction(w, loaded.value, accounts[1].key, accounts[0], act, proof, now);
      if to.Err? {
        return Err(to.error);
      }
      done := PayOut(loaded.value, accounts[1].key, to.value, accounts);
    }

    /** A transaction: a failing instruction leaves everything as it was. */
    method Execute(ix: Instruction, accounts: seq<Meta>, now: I64) returns (done: Done)
      modifies this
      ensures View() == Committed(w, old(View()), ix, accounts, now)
      ensures var spec := Specified(w, old(View()), ix, accounts, now);
              if spec.Ok? then done.Ok? else done == Err(spec.error)
    {
      var lamports0, tokens0, escrows0 := lamports, tokens, escrows;
      match ix {
        case Open(a) => done := OpenEscrow(a, accounts, now);
        case Freeze(bySignature, proof) => done := FreezeEscrow(accounts, bySignature, proof);
        case Settle(act, proof) => done := SettleEscrow(accounts, act, proof, now);
      }
      assert Did(Specified(w, old(View()), ix, accounts, now), done, View());
      if done.Err? {
        lamports, tokens, escrows := lamports0, tokens0, escrows0;
      }
    }
  }
}

/**
 The escrow program of contracts/p2p-solana/src/lib.rs: opening, freezing and settling an
 escrow, as transactions on the ledger. Program-derived addresses, the rent and the validity of
 mints are parameters; a proof is what the preceding Ed25519 instruction attests.
 */
module EscrowProgram {
  import opened Common
  import opened EscrowCodec
  import opened EscrowLedger

  const MIN_FALLBACK := 30 * 24 * 60 * 60
  const MAX_FALLBACK := 365 * 24 * 60 * 60
  const MAX_FEE_BPS := 1_000
  const ACTION_CANCEL: Byte := 2
  const ACTION_FREEZE: Byte := 5
  /** The system program's address is the all-zero key. */
  const SYSTEM_PROGRAM: Key := NO_KEY

  datatype World = World(
    find: (Key, Key) -> (Key, Byte),
    create: (Key, Key, Byte) -> Option<Key>,
    findVault: Key -> (Key, Byte),
    createVault: (Key, Byte) -> Option<Key>,
    isMint: Key -> bool,
    rentEscrow: U64,
    rentToken: U64,
    tokenProgram: Key,
    sysvar: Key)

  /** Finding an address and deriving it again with the bump found agree. */
  ghost predicate WorldOk(w: World) {
    && (forall t, s :: w.create(t, s, w.find(t, s).1) == Some(w.find(t, s).0))
    && (forall k :: w.createVault(k, w.findVault(k).1) == Some(w.findVault(k).0))
  }

  datatype Meta = Meta(key: Key, signer: bool, writable: bool)
  datatype Proof = Proof(escrow: Key, signer: Key, action: Byte)
  datatype OpenArgs = OpenArgs(
    tradeId: Key, buyer: Key, arbiter: Key, feeReceiver: Key, mint: Key, total: U64, fee: U64, delay: I64)
  datatype Act = Release | Cancel | Resolve(toBuyer: bool) | Reclaim | CancelFor

  predicate IsNative(e: Escrow) {
    e.mint == NO_KEY
  }

  // ----- opening

  /** The checks made before anything moves; the result is the escrow's address and bump. */
  function MayOpen(w: World, l: Ledger, a: OpenArgs, accounts: seq<Meta>): Result<(Key, Byte), EscrowError> {
    if |accounts| < 3 then Err(MissingAccounts)
    else
      var seller, escrow, system := accounts[0], accounts[1], accounts[2];
      if !seller.signer || !seller.writable || !escrow.writable || system.key != SYSTEM_PROGRAM then Err(BadAccount)
      else if a.buyer == NO_KEY || a.arbiter == NO_KEY || a.feeReceiver == NO_KEY then Err(BadParty)
      else if a.buyer == seller.key || a.arbiter == seller.key || a.arbiter == a.buyer then Err(BadParty)
      else if a.total == 0 || a.fee * 10_000 > a.total * MAX_FEE_BPS then Err(BadAmount)
      else if a.delay < MIN_FALLBACK || a.delay > MAX_FALLBACK then Err(BadFallback)
      else if escrow.key != w.find(a.tradeId, seller.key).0 then Err(BadAccount)
      else if !Unused(l, escrow.key) then Err(AlreadyUsed)
      else if w.rentEscrow + (if a.mint == NO_KEY then a.total else 0) > MAX_U64 then Err(BadAmount)
      else Ok(w.find(a.tradeId, seller.key))
  }

  /** The vault's address and bump, once the token accounts are found in order. */
  function MayVault(
    w: World, l: Ledger, a: OpenArgs, accounts: seq<Meta>, escrow: Key): Result<(Key, Byte), EscrowError>
  {
    if |accounts| < 7 then Err(MissingAccounts)
    else
      var mint, vault, program := accounts[3], accounts[5], accounts[6];
      if program.key != w.tokenProgram || mint.key != a.mint || !vault.writable ||
          !w.isMint(mint.key) then Err(BadAccount)
      else if vault.key != w.findVault(escrow).0 then Err(BadAccount)
      else if !Unused(l, vault.key) || vault.key == escrow then Err(AlreadyUsed)
      else Ok(w.findVault(escrow))
  }

  /** The vault is created and funded with exactly the total. */
  function VaultFunded(w: World, l: Ledger, a: OpenArgs, seller: Key, source: Key, escrow: Key, vault: Key): Outcome {
    var made := Created(l, seller, vault, w.rentToken);
    if made.Err? then made
    else
      var open := made.value.(tokens := made.value.tokens[vault := Token(a.mint, escrow, 0)]);
      TokensMoved(open, source, vault, a.mint, a.total, seller)
  }

  function EscrowOf(a: OpenArgs, seller: Key, bump: Byte, vaultBump: Byte, now: I64): Result<Escrow, EscrowError> {
    if now + a.delay > 0x7FFF_FFFF_FFFF_FFFF || now + a.delay < -0x8000_0000_0000_0000 then Err(BadFallback)
    else Ok(Escrow(STATE_FUNDED, false, bump, vaultBump, a.tradeId, seller, a.buyer, a.arbiter, a.feeReceiver, a.mint,
                   a.total, a.fee, now, now + a.delay))
  }

  function Deposited(
    w: World, l: Ledger, a: OpenArgs, accounts: seq<Meta>, escrow: Key): Result<(Ledger, Byte), EscrowError>
    requires |accounts| >= 3
  {
    var seller := accounts[0].key;
    var made := Created(l, seller, escrow, w.rentEscrow + if a.mint == NO_KEY then a.total else 0);
    if made.Err? then Err(made.error)
    else if a.mint == NO_KEY then Ok((made.value, 0))
    else
      var at := MayVault(w, made.value, a, accounts, escrow);
      if at.Err? then Err(at.error)
      else
        var funded := VaultFunded(w, made.value, a, seller, accounts[4].key, escrow, at.value.0);
        if funded.Err? then Err(funded.error) else Ok((funded.value, at.value.1))
  }

  function Opened(w: World, l: Ledger, a: OpenArgs, accounts: seq<Meta>, now: I64): Outcome {
    var at := MayOpen(w, l, a, accounts);
    if at.Err? then Err(at.error)
    else
      var (escrow, bump) := at.value;
      var held := Deposited(w, l, a, accounts, escrow);
      if held.Err? then Err(held.error)
      else
        var e := EscrowOf(a, accounts[0].key, bump, held.value.1, now);
        if e.Err? then Err(e.error)
        else Ok(held.value.0.(escrows := held.value.0.escrows[escrow := e.value]))
  }

  // ----- freezing

  function Load(w: World, l: Ledger, at: Meta): Result<Escrow, EscrowError> {
    if at.key !in l.escrows then Err(UnknownEscrow)
    else
      var e := l.escrows[at.key];
      if w.create(e.tradeId, e.seller, e.bump) != Some(at.key) then Err(UnknownEscrow)
      else if e.state != STATE_FUNDED then Err(NotFunded)
      else if !at.writable then Err(BadAccount)
      else Ok(e)
  }

  function Attested(w: World, actor: Meta, proof: Option<Proof>, escrow: Key, signer: Key,
      action: Byte): Option<EscrowError> {
    if actor.key != w.sysvar then Some(BadAccount)
    else if proof != Some(Proof(escrow, signer, action)) then Some(BadSignature)
    else None
  }

  function Frozen(w: World, l: Ledger, accounts: seq<Meta>, bySignature: bool, proof: Option<Proof>): Outcome {
    if |accounts| < 2 then Err(MissingAccounts)
    else
      var actor, at := accounts[0], accounts[1];
      var loaded := Load(w, l, at);
      if loaded.Err? then Err(loaded.error)
      else
        var e := loaded.value;
        var refused := Attested(w, actor, proof, at.key, e.buyer, ACTION_FREEZE);
        if bySignature && refused.Some? then Err(refused.value)
        else if !bySignature && (!actor.signer || (actor.key != e.buyer && actor.key != e.arbiter)) then Err(NotAllowed)
        else if e.frozen then Err(NotAllowed)
        else Ok(l.(escrows := l.escrows[at.key := e.(frozen := true)]))
  }

  // ----- settling

  /** Who gets the money, if the actor may say so: true for the buyer. */
  function Direction(
    w: World, e: Escrow, escrow: Key, actor: Meta, act: Act, proof: Option<Proof>, now: I64): Result<bool, EscrowError>
  {
    match act
    case Release => if actor.signer && actor.key == e.seller then Ok(true) else Err(NotAllowed)
    case Cancel => if actor.signer && actor.key == e.buyer then Ok(false) else Err(NotAllowed)
    case Resolve(toBuyer) => if actor.signer && actor.key == e.arbiter then Ok(toBuyer) else Err(NotAllowed)
    case Reclaim =>
      if !actor.signer || actor.key != e.seller || e.frozen then Err(NotAllowed)
      else if now < e.fallbackAt then Err(TooEarly)
      else Ok(false)
    case CancelFor =>
      var refused := Attested(w, actor, proof, escrow, e.buyer, ACTION_CANCEL);
      if refused.Some? then Err(refused.value) else Ok(false)
  }

  function PartyPaid(e: Escrow, toBuyer: bool): Key {
    if toBuyer then e.buyer else e.seller
  }

  function FeeDue(e: Escrow, toBuyer: bool): U64 {
    if toBuyer then e.fee else 0
  }

  /** The accounts behind the actor and the escrow are the right ones, lamports case. */
  predicate NativePayees(e: Escrow, toBuyer: bool, accounts: seq<Meta>) {
    && |accounts| >= (if toBuyer then 5 else 4)
    && accounts[2].key == e.seller && accounts[2].writable && accounts[3].writable
    && accounts[3].key == PartyPaid(e, toBuyer)
    && (toBuyer ==> accounts[4].key == e.feeReceiver && accounts[4].writable)
  }

  function PaidNative(l: Ledger, e: Escrow, escrow: Key, toBuyer: bool, accounts: seq<Meta>): Outcome
    requires NativePayees(e, toBuyer, accounts)
  {
    var fee := FeeDue(e, toBuyer);
    if fee > e.total then Err(Runtime)
    else
      var paid := Moved(l, escrow, accounts[3].key, e.total - fee);
      if paid.Err? || fee == 0 then paid else Moved(paid.value, escrow, accounts[4].key, fee)
  }

  predicate IsTokenOf(l: Ledger, k: Key, owner: Key, mint: Key) {
    k in l.tokens && l.tokens[k].owner == owner && l.tokens[k].mint == mint
  }

  /** Token case: vault, mint and token program follow. */
  function VaultIndex(toBuyer: bool): nat {
    if toBuyer then 5 else 4
  }

  predicate VaultGiven(w: World, l: Ledger, e: Escrow, escrow: Key, toBuyer: bool, accounts: seq<Meta>) {
    var at := VaultIndex(toBuyer);
    && |accounts| >= at + 3
    && accounts[2].key == e.seller && accounts[2].writable && accounts[3].writable
    && accounts[at + 2].key == w.tokenProgram && accounts[at + 1].key == e.mint && accounts[at].writable
    && Some(accounts[at].key) == w.createVault(escrow, e.vaultBump) && w.isMint(e.mint)
    && accounts[at].key in l.tokens
  }

  predicate TokenPayees(l: Ledger, e: Escrow, toBuyer: bool, accounts: seq<Meta>)
    requires |accounts| >= VaultIndex(toBuyer)
  {
    && IsTokenOf(l, accounts[3].key, PartyPaid(e, toBuyer), e.mint)
    && (FeeDue(e, toBuyer) > 0 ==> IsTokenOf(l, accounts[4].key, e.feeReceiver, e.mint) && accounts[4].writable)
  }

  /** The vault among the accounts given. */
  predicate HasVault(l: Ledger, toBuyer: bool, accounts: seq<Meta>) {
    |accounts| > VaultIndex(toBuyer) && accounts[VaultIndex(toBuyer)].key in l.tokens
  }

  function VaultOf(toBuyer: bool, accounts: seq<Meta>): Key
    requires |accounts| > VaultIndex(toBuyer)
  {
    accounts[VaultIndex(toBuyer)].key
  }

  /** All the vault holds beyond the fee goes to the party paid. */
  function ShareSent(l: Ledger, e: Escrow, escrow: Key, toBuyer: bool, accounts: seq<Meta>): Outcome
    requires HasVault(l, toBuyer, accounts)
  {
    var held, fee := l.tokens[VaultOf(toBuyer, accounts)].amount, FeeDue(e, toBuyer);
    if fee > held then Err(Runtime)
    else TokensMoved(l, VaultOf(toBuyer, accounts), accounts[3].key, e.mint, held - fee, escrow)
  }

  function PaidTokens(l: Ledger, e: Escrow, escrow: Key, toBuyer: bool, accounts: seq<Meta>): Outcome
    requires HasVault(l, toBuyer, accounts)
  {
    if l.tokens[VaultOf(toBuyer, accounts)].amount < e.total then Err(BadAmount)
    else if !TokenPayees(l, e, toBuyer, accounts) then Err(BadAccount)
    else
      var sent := ShareSent(l, e, escrow, toBuyer, accounts);
      if sent.Err? then sent
      else FeePaid(sent.value, e, escrow, VaultOf(toBuyer, accounts), FeeDue(e, toBuyer), accounts)
  }

  function FeePaid(l: Ledger, e: Escrow, escrow: Key, vault: Key, fee: U64, accounts: seq<Meta>): Outcome
    requires fee > 0 ==> |accounts| > 4
  {
    var paid := if fee > 0 then TokensMoved(l, vault, accounts[4].key, e.mint, fee, escrow) else Ok(l);
    if paid.Err? then paid else Closed(paid.value, vault, e.seller, escrow)
  }

  /** Which error a wrong account list gives. */
  function Unpayable(e: Escrow, toBuyer: bool, accounts: seq<Meta>): EscrowError {
    var few := if toBuyer then 5 else 4;
    if |accounts| < few then MissingAccounts
    else if accounts[2].key != e.seller || !accounts[2].writable || !accounts[3].writable then BadAccount
    else if !IsNative(e) && |accounts| < few + 3 then MissingAccounts
    else BadAccount
  }

  /** What is left in the escrow goes to the seller, and the escrow is gone. */
  function Emptied(l: Ledger, escrow: Key, seller: Key): Outcome {
    var r := Moved(l, escrow, seller, Balance(l, escrow));
    if r.Err? then r else Ok(r.value.(escrows := r.value.escrows - {escrow}))
  }

  predicate Payable(w: World, l: Ledger, e: Escrow, escrow: Key, toBuyer: bool, accounts: seq<Meta>) {
    if IsNative(e) then NativePayees(e, toBuyer, accounts) else VaultGiven(w, l, e, escrow, toBuyer, accounts)
  }

  function Paid(w: World, l: Ledger, e: Escrow, escrow: Key, toBuyer: bool, accounts: seq<Meta>): Outcome
    requires Payable(w, l, e, escrow, toBuyer, accounts)
  {
    if IsNative(e) then PaidNative(l, e, escrow, toBuyer, accounts) else PaidTokens(l, e, escrow, toBuyer, accounts)
  }

  function PaidOut(w: World, l: Ledger, e: Escrow, escrow: Key, toBuyer: bool, accounts: seq<Meta>): Outcome {
    if !Payable(w, l, e, escrow, toBuyer, accounts) then Err(Unpayable(e, toBuyer, accounts))
    else
      var paid := Paid(w, l, e, escrow, toBuyer, accounts);
      if paid.Err? then paid else Emptied(paid.value, escrow, e.seller)
  }

  function Settled(w: World, l: Ledger, accounts: seq<Meta>, act: Act, proof: Option<Proof>, now: I64): Outcome {
    if |accounts| < 2 then Err(MissingAccounts)
    else
      var loaded := Load(w, l, accounts[1]);
      if loaded.Err? then Err(loaded.error)
      else
        var to := Direction(w, loaded.value, accounts[1].key, accounts[0], act, proof, now);
        if to.Err? then Err(to.error) else PaidOut(w, l, loaded.value, accounts[1].key, to.value, accounts)
  }

  // ----- transactions

  datatype Instruction =
    | Open(args: OpenArgs)
    | Freeze(bySignature: bool, proof: Option<Proof>)
    | Settle(act: Act, proof: Option<Proof>)

  function Specified(w: World, l: Ledger, ix: Instruction, accounts: seq<Meta>, now: I64): Outcome {
    match ix
    case Open(a) => Opened(w, l, a, accounts, now)
    case Freeze(bySignature, proof) => Frozen(w, l, accounts, bySignature, proof)
    case Settle(act, proof) => Settled(w, l, accounts, act, proof, now)
  }

  /** A transaction: a failing instruction leaves everything as it was. */
  function Committed(w: World, l: Ledger, ix: Instruction, accounts: seq<Meta>, now: I64): Ledger {
    var r := Specified(w, l, ix, accounts, now);
    if r.Ok? then r.value else l
  }
}

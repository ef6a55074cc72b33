/**
 The stored form of an escrow in contracts/p2p-solana/src/lib.rs: a fixed layout of 232 bytes.
 */
module EscrowCodec {
  import opened Common

  type Byte = b: int | 0 <= b < 256
  type Bytes = seq<Byte>
  type I64 = x: int | -0x8000_0000_0000_0000 <= x <= 0x7FFF_FFFF_FFFF_FFFF

  /** A public key or trade identifier. */
  type Key = k: Bytes | |k| == 32 witness Zeros(32)

  function Zeros(n: nat): (s: Bytes)
    ensures |s| == n
  {
    if n == 0 then [] else Zeros(n - 1) + [0]
  }

  const NO_KEY: Key := Zeros(32)
  const ESCROW_LEN := 232
  const VERSION: Byte := 1
  const STATE_FUNDED: Byte := 1

  datatype EscrowError =
    | UnknownEscrow | NotFunded | AlreadyUsed | BadParty | BadAmount | BadFallback
    | NotAllowed | TooEarly | BadSignature | BadAccount | BadInstruction
    | MissingAccounts | Runtime

  datatype Escrow = Escrow(
    state: Byte, frozen: bool, bump: Byte, vaultBump: Byte, tradeId: Key,
    seller: Key, buyer: Key, arbiter: Key, feeReceiver: Key, mint: Key,
    total: U64, fee: U64, openedAt: I64, fallbackAt: I64)

  // ----- little-endian numbers

  function Pow256(n: nat): nat {
    if n == 0 then 1 else 256 * Pow256(n - 1)
  }

  function Little(x: nat, n: nat): (s: Bytes)
    ensures |s| == n
  {
    if n == 0 then [] else [x % 256] + Little(x / 256, n - 1)
  }

  function Value(s: Bytes): (x: nat)
    ensures x < Pow256(|s|)
  {
    if s == [] then 0 else Cons256(s[0], Value(s[1..]))
  }

  function Cons256(low: nat, high: nat): nat {
    low + 256 * high
  }

  lemma {:induction false} ValueOfLittle(x: nat, n: nat)
    requires x < Pow256(n)
    ensures Value(Little(x, n)) == x
  {
    if n > 0 {
      ValueOfLittle(x / 256, n - 1);
      assert Little(x, n)[1..] == Little(x / 256, n - 1);
    }
  }

  lemma {:induction false} LittleOfValue(s: Bytes)
    ensures Little(Value(s), |s|) == s
  {
    if s != [] {
      LittleOfValue(s[1..]);
      assert Cons256(s[0], Value(s[1..])) % 256 == s[0] && Cons256(s[0], Value(s[1..])) / 256 == Value(s[1..]);
      assert s == [s[0]] + s[1..];
    }
  }

  lemma Pow256Of8()
    ensures Pow256(8) == MAX_U64 + 1
  {
    assert Pow256(4) == 0x1_0000_0000;
    assert Pow256(6) == 0x1_0000_0000_0000;
  }

  function U64Of(s: Bytes): U64
    requires |s| == 8
  {
    Pow256Of8();
    Value(s)
  }

  /** Two's complement: `as i64` and `to_le_bytes` of a signed number. */
  function Signed(x: U64): I64 {
    if x <= 0x7FFF_FFFF_FFFF_FFFF then x else x - (MAX_U64 + 1)
  }

  function Unsigned(x: I64): U64 {
    if x >= 0 then x else x + MAX_U64 + 1
  }

  // ----- the layout

  /** The fields behind the head, in the order they are stored. */
  function Part(e: Escrow, n: nat): (s: Bytes)
    requires n < 10
    ensures |s| == if n < 6 then 32 else 8
  {
    match n
    case 0 => e.tradeId
    case 1 => e.seller
    case 2 => e.buyer
    case 3 => e.arbiter
    case 4 => e.feeReceiver
    case 5 => e.mint
    case 6 => Little(e.total, 8)
    case 7 => Little(e.fee, 8)
    case 8 => Little(Unsigned(e.openedAt), 8)
    case _ => Little(Unsigned(e.fallbackAt), 8)
  }

  function Offset(n: nat): nat
    requires n <= 10
  {
    if n <= 6 then 8 + 32 * n else 200 + 8 * (n - 6)
  }

  function Head(e: Escrow): Bytes {
    [VERSION, e.state, if e.frozen then 1 else 0, e.bump, e.vaultBump, 0, 0, 0]
  }

  function Packed(e: Escrow, n: nat): (s: Bytes)
    requires n <= 10
    ensures |s| == Offset(n)
  {
    if n == 0 then Head(e) else Packed(e, n - 1) + Part(e, n - 1)
  }

  function Pack(e: Escrow): (s: Bytes)
    ensures |s| == ESCROW_LEN
  {
    Packed(e, 10)
  }

  function KeyAt(d: Bytes, at: nat): Key
    requires at + 32 <= |d|
  {
    d[at..at + 32]
  }

  function U64At(d: Bytes, at: nat): U64
    requires at + 8 <= |d|
  {
    U64Of(d[at..at + 8])
  }

  function Unpack(d: Bytes): Result<Escrow, EscrowError> {
    if |d| != ESCROW_LEN || d[0] != VERSION then Err(UnknownEscrow)
    else Ok(Escrow(
      d[1], d[2] != 0, d[3], d[4], KeyAt(d, 8),
      KeyAt(d, 40), KeyAt(d, 72), KeyAt(d, 104), KeyAt(d, 136), KeyAt(d, 168),
      U64At(d, 200), U64At(d, 208), Signed(U64At(d, 216)), Signed(U64At(d, 224))))
  }

  /** Writes the fields over the account's data. */
  method PackInto(e: Escrow, out: array<Byte>)
    requires out.Length == ESCROW_LEN
    modifies out
    ensures out[..] == Pack(e)
  {
    CopyInto(Head(e), out, 0);
    for n := 0 to 10
      invariant out[..Offset(n)] == Packed(e, n)
    {
      CopyInto(Part(e, n), out, Offset(n));
      assert Offset(n) + |Part(e, n)| == Offset(n + 1);
    }
    assert out[..] == out[..Offset(10)];
  }

  method CopyInto(s: Bytes, out: array<Byte>, at: nat)
    requires at + |s| <= out.Length
    modifies out
    ensures out[..at + |s|] == old(out[..at]) + s
  {
    for i := 0 to |s|
      invariant out[..at + i] == old(out[..at]) + s[..i]
    {
      out[at + i] := s[i];
    }
  }

  // ----- round trips

  lemma Within(p: Bytes, s: Bytes, i: nat, j: nat)
    requires i <= j <= |p|
    ensures (p + s)[i..j] == p[i..j]
  {
  }

  lemma AtEnd(p: Bytes, s: Bytes)
    ensures (p + s)[|p|..|p| + |s|] == s
  {
  }

  lemma {:induction false} PartStands(e: Escrow, i: nat, n: nat)
    requires i < n <= 10
    ensures Packed(e, n)[Offset(i)..Offset(i + 1)] == Part(e, i)
  {
    if n > i + 1 {
      PartStands(e, i, n - 1);
      Within(Packed(e, n - 1), Part(e, n - 1), Offset(i), Offset(i + 1));
    } else {
      AtEnd(Packed(e, i), Part(e, i));
    }
  }

  lemma {:induction false} HeadStands(e: Escrow, n: nat)
    requires n <= 10
    ensures Packed(e, n)[..8] == Head(e)
  {
    if n > 0 {
      HeadStands(e, n - 1);
      Within(Packed(e, n - 1), Part(e, n - 1), 0, 8);
      assert Packed(e, n)[..8] == Packed(e, n)[0..8] && Packed(e, n - 1)[..8] == Packed(e, n - 1)[0..8];
    }
  }

  lemma NumberStands(e: Escrow, i: nat, x: U64)
    requires 6 <= i < 10 && Part(e, i) == Little(x, 8)
    ensures U64At(Pack(e), Offset(i)) == x
  {
    PartStands(e, i, 10);
    Pow256Of8();
    ValueOfLittle(x, 8);
  }

  lemma KeyStands(e: Escrow, i: nat)
    requires i < 6
    ensures KeyAt(Pack(e), Offset(i)) == Part(e, i)
  {
    PartStands(e, i, 10);
  }

  lemma FlagsStand(e: Escrow)
    ensures var d := Pack(e);
            d[0] == VERSION && d[1] == e.state && (d[2] != 0 <==> e.frozen) && d[3] == e.bump && d[4] == e.vaultBump
  {
    var d := Pack(e);
    HeadStands(e, 10);
    FirstEight(d);
  }

  lemma KeysBack(e: Escrow)
    ensures var d := Pack(e);
            && KeyAt(d, 8) == e.tradeId && KeyAt(d, 40) == e.seller && KeyAt(d, 72) == e.buyer
            && KeyAt(d, 104) == e.arbiter && KeyAt(d, 136) == e.feeReceiver && KeyAt(d, 168) == e.mint
  {
    KeyStands(e, 0);
    KeyStands(e, 1);
    KeyStands(e, 2);
    KeyStands(e, 3);
    KeyStands(e, 4);
    KeyStands(e, 5);
  }

  lemma NumbersBack(e: Escrow)
    ensures var d := Pack(e);
            && U64At(d, 200) == e.total && U64At(d, 208) == e.fee
            && Signed(U64At(d, 216)) == e.openedAt && Signed(U64At(d, 224)) == e.fallbackAt
  {
    NumberStands(e, 6, e.total);
    NumberStands(e, 7, e.fee);
    NumberStands(e, 8, Unsigned(e.openedAt));
    NumberStands(e, 9, Unsigned(e.fallbackAt));
  }

  /** Whatever is packed unpacks to itself. */
  lemma UnpackOfPack(e: Escrow)
    ensures Unpack(Pack(e)) == Ok(e)
  {
    FlagsStand(e);
    KeysBack(e);
    NumbersBack(e);
  }

  /** The flag and the padding are as `Pack` writes them. */
  predicate Canonical(d: Bytes)
    requires |d| == ESCROW_LEN
  {
    d[2] <= 1 && d[5] == d[6] == d[7] == 0
  }

  lemma {:induction false} RepacksUpTo(d: Bytes, e: Escrow, n: nat)
    requires |d| == ESCROW_LEN && Canonical(d) && Unpack(d) == Ok(e) && n <= 10
    ensures Packed(e, n) == d[..Offset(n)]
  {
    if n == 0 {
      FirstEight(d);
    } else {
      RepacksUpTo(d, e, n - 1);
      RepacksPart(d, e, n - 1);
      Joined(d, Offset(n - 1), Offset(n));
    }
  }

  lemma FirstEight(d: Bytes)
    requires |d| >= 8
    ensures d[..8] == [d[0], d[1], d[2], d[3], d[4], d[5], d[6], d[7]]
  {
  }

  lemma Joined(d: Bytes, i: nat, j: nat)
    requires i <= j <= |d|
    ensures d[..j] == d[..i] + d[i..j]
  {
  }

  lemma NumberRepacks(d: Bytes, at: nat)
    requires at + 8 <= |d|
    ensures Little(U64At(d, at), 8) == d[at..at + 8]
    ensures Unsigned(Signed(U64At(d, at))) == U64At(d, at)
  {
    LittleOfValue(d[at..at + 8]);
  }

  lemma RepacksPart(d: Bytes, e: Escrow, i: nat)
    requires |d| == ESCROW_LEN && Unpack(d) == Ok(e) && i < 10
    ensures Part(e, i) == d[Offset(i)..Offset(i + 1)]
  {
    if i >= 6 {
      NumberRepacks(d, Offset(i));
    }
  }

  /** What unpacks packs back to the same bytes exactly when those were canonical. */
  lemma PackOfUnpackIff(d: Bytes)
    requires Unpack(d).Ok?
    ensures Pack(Unpack(d).value) == d <==> Canonical(d)
  {
    var e := Unpack(d).value;
    if Canonical(d) {
      RepacksUpTo(d, e, 10);
      assert d[..Offset(10)] == d;
    } else {
      HeadStands(e, 10);
      var p := Pack(e);
      assert p[2] == p[..8][2] && p[5] == p[..8][5] && p[6] == p[..8][6] && p[7] == p[..8][7];
    }
  }
}

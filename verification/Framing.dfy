/**
 The frame codec of ego-desktop/sideband-bridge.py: an encoder, and a decoder that hunts for a
 sync word in a byte stream which may have lost or gained bytes. CRC-32 is a parameter.
 */
module Framing {
  import opened Common

  type Byte = b: int | 0 <= b < 256
  type Bytes = seq<Byte>
  type Crc = Bytes -> U32

  const SYNC: Bytes := [0xE6, 0x07, 0xA5, 0x5A]
  const HEADER_LEN := 10
  const MAX_FRAME := 4096
  const LIMIT := (MAX_FRAME + HEADER_LEN) * 4

  // ----- encoding

  predicate Encodable(payload: Bytes) {
    1 <= |payload| <= MAX_FRAME
  }

  function Big16(n: int): Bytes
    requires 0 <= n < 0x1_0000
  {
    [n / 256, n % 256]
  }

  function Big32(n: U32): Bytes {
    [n / 256 / 256 / 256, n / 256 / 256 % 256, n / 256 % 256, n % 256]
  }

  function Frame(crc: Crc, payload: Bytes): Bytes
    requires Encodable(payload)
  {
    SYNC + Big16(|payload|) + Big32(crc(payload)) + payload
  }

  /** An empty payload and one too long are refused. */
  function EncodeFrame(crc: Crc, payload: Bytes): (r: Result<Bytes, string>)
    ensures r.Err? <==> payload == [] || |payload| > MAX_FRAME
    ensures r.Ok? ==> |r.value| == HEADER_LEN + |payload|
  {
    if Encodable(payload) then Ok(Frame(crc, payload)) else Err("out of range")
  }

  // ----- what stands at the front of a buffer

  predicate StartsSync(s: Bytes) {
    |s| >= |SYNC| && s[..|SYNC|] == SYNC
  }

  function Value16(a: nat, b: nat): nat {
    a * 256 + b
  }

  function Value32(a: nat, b: nat, c: nat, d: nat): nat {
    Value16(Value16(Value16(a, b), c), d)
  }

  function LengthField(s: Bytes): nat
    requires |s| >= HEADER_LEN
  {
    Value16(s[4], s[5])
  }

  function CrcField(s: Bytes): nat
    requires |s| >= HEADER_LEN
  {
    Value32(s[6], s[7], s[8], s[9])
  }

  /** A frame, bytes that can never start one, or too little to tell. */
  datatype Look = Whole(payload: Bytes) | Junk | Partial

  function LookAt(crc: Crc, s: Bytes): (k: Look)
    ensures k.Whole? ==> Encodable(k.payload) && |s| >= HEADER_LEN + |k.payload|
    ensures k.Junk? ==> |s| > |SYNC|
  {
    if !StartsSync(s) then if |s| > |SYNC| then Junk else Partial
    else if |s| < HEADER_LEN then Partial
    else
      var n := LengthField(s);
      if n == 0 || n > MAX_FRAME then Junk
      else if |s| < HEADER_LEN + n then Partial
      else
        var payload := s[HEADER_LEN..HEADER_LEN + n];
        if crc(payload) == CrcField(s) then Whole(payload) else Junk
  }

  /** The outcome of reading: the payloads found, the bytes kept, how many were dropped. */
  datatype Reading = Reading(payloads: seq<Bytes>, rest: Bytes, dropped: nat)

  function Prepend(payloads: seq<Bytes>, dropped: nat, x: Reading): Reading {
    Reading(payloads + x.payloads, x.rest, dropped + x.dropped)
  }

  /** One left-to-right scan: take the frame that stands here, or move on by one byte. */
  function Scan(crc: Crc, s: Bytes): Reading
    decreases |s|
  {
    match LookAt(crc, s)
    case Whole(payload) =>
      var x := Scan(crc, s[HEADER_LEN + |payload|..]);
      x.(payloads := [payload] + x.payloads)
    case Junk =>
      var x := Scan(crc, s[1..]);
      x.(dropped := 1 + x.dropped)
    case Partial => Reading([], s, 0)
  }

  lemma PrependTwice(a: seq<Bytes>, d: nat, b: seq<Bytes>, e: nat, x: Reading)
    ensures Prepend(a, d, Prepend(b, e, x)) == Prepend(a + b, d + e, x)
  {
    assert a + (b + x.payloads) == (a + b) + x.payloads;
  }

  lemma PrependNothing(x: Reading)
    ensures Prepend([], 0, x) == x
  {
    assert [] + x.payloads == x.payloads;
  }

  lemma ScanOne(crc: Crc, s: Bytes)
    ensures match LookAt(crc, s)
            case Whole(payload) => Scan(crc, s) == Prepend([payload], 0, Scan(crc, s[HEADER_LEN + |payload|..]))
            case Junk => Scan(crc, s) == Prepend([], 1, Scan(crc, s[1..]))
            case Partial => Scan(crc, s) == Reading([], s, 0)
  {
    if LookAt(crc, s).Junk? {
      var x := Scan(crc, s[1..]);
      assert [] + x.payloads == x.payloads;
    }
  }

  // ----- the decoder

  predicate SyncAt(s: Bytes, i: nat) {
    i + |SYNC| <= |s| && s[i..i + |SYNC|] == SYNC
  }

  method FindSync(s: Bytes) returns (at: int)
    ensures at >= 0 ==> SyncAt(s, at)
    ensures at >= -1 && forall j: nat :: j < (if at >= 0 then at else |s|) ==> !SyncAt(s, j)
  {
    for i := 0 to |s|
      invariant forall j: nat :: j < i ==> !SyncAt(s, j)
    {
      if i + |SYNC| <= |s| && s[i..i + |SYNC|] == SYNC {
        return i;
      }
    }
    at := -1;
  }

  /** Bytes before the next sync word are passed one by one. */
  lemma {:induction false} HuntPasses(crc: Crc, s: Bytes, n: nat)
    requires n + |SYNC| <= |s| && forall j: nat :: j < n ==> !SyncAt(s, j)
    ensures var x := Scan(crc, s[n..]); Scan(crc, s) == x.(dropped := n + x.dropped)
  {
    if n == 0 {
      assert s[0..] == s;
    } else {
      assert !SyncAt(s, 0) && s[0..0 + |SYNC|] == s[..|SYNC|];
      forall j: nat | j < n - 1 ensures !SyncAt(s[1..], j) {
        assert !SyncAt(s, j + 1) && s[1..][j..j + |SYNC|] == s[j + 1..j + 1 + |SYNC|];
      }
      HuntPasses(crc, s[1..], n - 1);
      assert s[1..][n - 1..] == s[n..];
    }
  }

  class FrameReader {
    const crc: Crc
    var buf: Bytes
    var dropped: nat

    constructor (crc: Crc)
      ensures this.crc == crc && buf == [] && dropped == 0
    {
      this.crc := crc;
      buf, dropped := [], 0;
    }

    /** Appends the chunk; past the cap the oldest bytes go. */
    method Feed(chunk: Bytes)
      modifies this
      ensures buf == Newest(old(buf) + chunk) && dropped == old(dropped) + |old(buf) + chunk| - |buf|
    {
      buf := buf + chunk;
      if |buf| > LIMIT {
        dropped := dropped + |buf| - LIMIT;
        buf := buf[|buf| - LIMIT..];
      }
    }

    method Frames() returns (out: seq<Bytes>)
      modifies this
      ensures dropped >= old(dropped)
      ensures Reading(out, buf, dropped - old(dropped)) == Scan(crc, old(buf))
    {
      out := [];
      while true
        invariant dropped >= old(dropped)
        invariant Scan(crc, old(buf)) == Prepend(out, dropped - old(dropped), Scan(crc, buf))
        decreases |buf|
      {
        ghost var before := dropped;
        var found := Hunt();
        PrependTwice(out, before - old(dropped), [], dropped - before, Scan(crc, buf));
        assert out + [] == out;
        ScanOne(crc, buf);
        if !found {
          return;
        }
        ghost var hunted := dropped - old(dropped);
        var seen := Judge();
        match seen
        case Partial => return;
        case Junk => PrependTwice(out, hunted, [], 1, Scan(crc, buf));
        case Whole(payload) =>
          PrependTwice(out, hunted, [payload], 0, Scan(crc, buf));
          out := out + [payload];
      }
    }

    /** Drops what precedes the next sync word, or all but a possible part of one. */
    method Hunt() returns (found: bool)
      modifies this
      ensures |buf| <= |old(buf)| && dropped >= old(dropped)
      ensures Scan(crc, old(buf)) == Prepend([], dropped - old(dropped), Scan(crc, buf))
      ensures if found then StartsSync(buf) else LookAt(crc, buf).Partial?
    {
      var start := FindSync(buf);
      if start < 0 {
        if |buf| > |SYNC| {
          HuntPasses(crc, buf, |buf| - |SYNC|);
          assert !SyncAt(buf, |buf| - |SYNC|);
          dropped := dropped + |buf| - |SYNC|;
          buf := buf[|buf| - |SYNC|..];
        } else {
          assert !SyncAt(buf, 0);
        }
        return false;
      }
      HuntPasses(crc, buf, start);
      if start > 0 {
        dropped := dropped + start;
        buf := buf[start..];
      }
      return true;
    }

    /** Acts on what stands at the front once it starts with a sync word. */
    method Judge() returns (seen: Look)
      requires StartsSync(buf)
      modifies this
      ensures seen == LookAt(crc, old(buf))
      ensures match seen
              case Whole(payload) => buf == old(buf)[HEADER_LEN + |payload|..] && dropped == old(dropped)
              case Junk => buf == old(buf)[1..] && dropped == old(dropped) + 1
              case Partial => buf == old(buf) && dropped == old(dropped)
    {
      if |buf| < HEADER_LEN {
        return Partial;
      }
      var length := LengthField(buf);
      if length == 0 || length > MAX_FRAME {
        buf := buf[1..];
        dropped := dropped + 1;
        return Junk;
      }
      if |buf| < HEADER_LEN + length {
        return Partial;
      }
      var payload := buf[HEADER_LEN..HEADER_LEN + length];
      if crc(payload) == CrcField(buf) {
        buf := buf[HEADER_LEN + length..];
        return Whole(payload);
      }
      buf := buf[1..];
      dropped := dropped + 1;
      return Junk;
    }
  }

  function Newest(s: Bytes): Bytes {
    if |s| > LIMIT then s[|s| - LIMIT..] else s
  }

  // ----- streaming equals batch

  /** More bytes do not change the verdict on a front that already had one. */
  lemma LookGrows(crc: Crc, s: Bytes, t: Bytes)
    requires !LookAt(crc, s).Partial?
    ensures LookAt(crc, s + t) == LookAt(crc, s)
  {
    assert (s + t)[..|SYNC|] == s[..|SYNC|];
    if StartsSync(s) && LengthField(s) <= MAX_FRAME && |s| >= HEADER_LEN + LengthField(s) {
      var end := HEADER_LEN + LengthField(s);
      assert (s + t)[HEADER_LEN..end] == s[HEADER_LEN..end];
    }
  }

  /** Scanning `s` and later `t` is scanning both at once. */
  predicate Resumes(crc: Crc, s: Bytes, t: Bytes) {
    var x := Scan(crc, s);
    Scan(crc, s + t) == Prepend(x.payloads, x.dropped, Scan(crc, x.rest + t))
  }

  lemma {:induction false} ScanResumes(crc: Crc, s: Bytes, t: Bytes)
    ensures Resumes(crc, s, t)
    decreases |s|
  {
    match LookAt(crc, s)
    case Whole(payload) =>
      ScanResumes(crc, s[HEADER_LEN + |payload|..], t);
      ResumeFrame(crc, s, t, payload);
    case Junk =>
      ScanResumes(crc, s[1..], t);
      ResumeJunk(crc, s, t);
    case Partial => ResumeWaiting(crc, s, t);
  }

  lemma ResumeWaiting(crc: Crc, s: Bytes, t: Bytes)
    requires LookAt(crc, s).Partial?
    ensures Resumes(crc, s, t)
  {
    ScanOne(crc, s);
    PrependNothing(Scan(crc, s + t));
  }

  /** The first `n` bytes are settled: they give the payloads `first` and drop `d` bytes. */
  predicate Front(crc: Crc, s: Bytes, n: nat, first: seq<Bytes>, d: nat) {
    n <= |s| &&
    match LookAt(crc, s)
    case Whole(payload) => first == [payload] && d == 0 && n == HEADER_LEN + |payload|
    case Junk => first == [] && d == n == 1
    case Partial => false
  }

  lemma FrontScan(crc: Crc, s: Bytes, n: nat, first: seq<Bytes>, d: nat)
    requires Front(crc, s, n, first, d)
    ensures Scan(crc, s) == Prepend(first, d, Scan(crc, s[n..]))
  {
    ScanOne(crc, s);
  }

  lemma DropAppend(s: Bytes, t: Bytes, n: nat)
    requires n <= |s|
    ensures (s + t)[n..] == s[n..] + t
  {
  }

  lemma ResumeBehind(crc: Crc, s: Bytes, t: Bytes, n: nat, first: seq<Bytes>, d: nat)
    requires Front(crc, s, n, first, d) && Resumes(crc, s[n..], t)
    ensures Resumes(crc, s, t)
  {
    var y := Scan(crc, s[n..]);
    LookGrows(crc, s, t);
    FrontScan(crc, s, n, first, d);
    FrontScan(crc, s + t, n, first, d);
    DropAppend(s, t, n);
    PrependTwice(first, d, y.payloads, y.dropped, Scan(crc, y.rest + t));
  }

  lemma ResumeFrame(crc: Crc, s: Bytes, t: Bytes, payload: Bytes)
    requires LookAt(crc, s) == Whole(payload) && Resumes(crc, s[HEADER_LEN + |payload|..], t)
    ensures Resumes(crc, s, t)
  {
    ResumeBehind(crc, s, t, HEADER_LEN + |payload|, [payload], 0);
  }

  lemma ResumeJunk(crc: Crc, s: Bytes, t: Bytes)
    requires LookAt(crc, s).Junk? && Resumes(crc, s[1..], t)
    ensures Resumes(crc, s, t)
  {
    ResumeBehind(crc, s, t, 1, [], 1);
  }

  function Concat(chunks: seq<Bytes>): Bytes {
    if chunks == [] then [] else Concat(chunks[..|chunks| - 1]) + chunks[|chunks| - 1]
  }

  /** A reader that is fed the chunks one by one, its frames taken after each. */
  function Session(crc: Crc, chunks: seq<Bytes>): Reading {
    if chunks == [] then Reading([], [], 0)
    else
      var before := Session(crc, chunks[..|chunks| - 1]);
      var filled := before.rest + chunks[|chunks| - 1];
      Prepend(before.payloads, before.dropped + |filled| - |Newest(filled)|, Scan(crc, Newest(filled)))
  }

  /** The receive loop: each chunk is fed and its frames are taken at once. */
  method Pump(crc: Crc, chunks: seq<Bytes>) returns (out: seq<Bytes>, rest: Bytes, dropped: nat)
    ensures Reading(out, rest, dropped) == Session(crc, chunks)
  {
    var reader := new FrameReader(crc);
    out := [];
    for i := 0 to |chunks|
      invariant reader.crc == crc
      invariant Reading(out, reader.buf, reader.dropped) == Session(crc, chunks[..i])
    {
      assert chunks[..i + 1][..i] == chunks[..i];
      reader.Feed(chunks[i]);
      var more := reader.Frames();
      out := out + more;
    }
    assert chunks[..|chunks|] == chunks;
    rest, dropped := reader.buf, reader.dropped;
  }

  /** The cap was never hit. */
  predicate NeverFull(crc: Crc, chunks: seq<Bytes>) {
    chunks != [] ==>
      && NeverFull(crc, chunks[..|chunks| - 1])
      && |Session(crc, chunks[..|chunks| - 1]).rest| + |chunks[|chunks| - 1]| <= LIMIT
  }

  lemma {:induction false} StreamingEqualsBatch(crc: Crc, chunks: seq<Bytes>)
    requires NeverFull(crc, chunks)
    ensures Session(crc, chunks) == Scan(crc, Concat(chunks))
  {
    if chunks != [] {
      StreamingEqualsBatch(crc, chunks[..|chunks| - 1]);
      ScanResumes(crc, Concat(chunks[..|chunks| - 1]), chunks[|chunks| - 1]);
    }
  }

  /** Less than one maximal frame is ever kept. */
  lemma {:induction false} RestIsShort(crc: Crc, s: Bytes)
    ensures |Scan(crc, s).rest| < HEADER_LEN + MAX_FRAME
    ensures LookAt(crc, Scan(crc, s).rest).Partial?
    decreases |s|
  {
    match LookAt(crc, s)
    case Whole(payload) => RestIsShort(crc, s[HEADER_LEN + |payload|..]);
    case Junk => RestIsShort(crc, s[1..]);
    case Partial =>
  }

  lemma {:induction false} SessionRestIsShort(crc: Crc, chunks: seq<Bytes>)
    ensures |Session(crc, chunks).rest| < HEADER_LEN + MAX_FRAME
  {
    if chunks != [] {
      var before := Session(crc, chunks[..|chunks| - 1]);
      RestIsShort(crc, Newest(before.rest + chunks[|chunks| - 1]));
    }
  }

  /** Chunks of up to three maximal frames can never hit the cap. */
  lemma {:induction false} SmallChunksFit(crc: Crc, chunks: seq<Bytes>)
    requires forall c :: c in chunks ==> |c| <= 3 * (HEADER_LEN + MAX_FRAME) + 1
    ensures NeverFull(crc, chunks)
  {
    if chunks != [] {
      SmallChunksFit(crc, chunks[..|chunks| - 1]);
      SessionRestIsShort(crc, chunks[..|chunks| - 1]);
      assert chunks[|chunks| - 1] in chunks;
    }
  }

  // ----- round trip

  lemma FieldsRoundTrip(n: int, c: U32)
    requires 0 <= n < 0x1_0000
    ensures Value16(Big16(n)[0], Big16(n)[1]) == n
    ensures Value32(Big32(c)[0], Big32(c)[1], Big32(c)[2], Big32(c)[3]) == c
  {
  }

  /** A frame at the front is recognised, whatever follows. */
  lemma FrameIsWhole(crc: Crc, payload: Bytes, t: Bytes)
    requires Encodable(payload)
    ensures LookAt(crc, Frame(crc, payload) + t) == Whole(payload)
    ensures (Frame(crc, payload) + t)[HEADER_LEN + |payload|..] == t
  {
    var s := Frame(crc, payload) + t;
    FieldsRoundTrip(|payload|, crc(payload));
    assert s[..|SYNC|] == SYNC;
    assert s[4..6] == Big16(|payload|) && s[6..10] == Big32(crc(payload));
    assert s[4] == s[4..6][0] && s[5] == s[4..6][1];
    assert s[6] == s[6..10][0] && s[7] == s[6..10][1] && s[8] == s[6..10][2] && s[9] == s[6..10][3];
    assert s[HEADER_LEN..HEADER_LEN + |payload|] == payload;
  }

  /** Whatever the encoder accepts is read back as it was, and reading goes on behind it. */
  lemma EncodedIsRead(crc: Crc, payload: Bytes, t: Bytes)
    requires EncodeFrame(crc, payload).Ok?
    ensures Scan(crc, EncodeFrame(crc, payload).value + t) == Prepend([payload], 0, Scan(crc, t))
  {
    FrameIsWhole(crc, payload, t);
    ScanOne(crc, Frame(crc, payload) + t);
  }

  function EncodeAll(crc: Crc, payloads: seq<Bytes>): Bytes
    requires forall p :: p in payloads ==> Encodable(p)
  {
    if payloads == [] then [] else Frame(crc, payloads[0]) + EncodeAll(crc, payloads[1..])
  }

  lemma {:induction false} ScanUndoesEncode(crc: Crc, payloads: seq<Bytes>)
    requires forall p :: p in payloads ==> Encodable(p)
    ensures Scan(crc, EncodeAll(crc, payloads)) == Reading(payloads, [], 0)
  {
    if payloads != [] {
      assert payloads[0] in payloads;
      ScanUndoesEncode(crc, payloads[1..]);
      FrameIsWhole(crc, payloads[0], EncodeAll(crc, payloads[1..]));
      assert payloads == [payloads[0]] + payloads[1..];
    }
  }

  /** However the encoded payloads are cut into chunks, the reader yields them in order. */
  lemma RoundTrip(crc: Crc, payloads: seq<Bytes>, chunks: seq<Bytes>)
    requires forall p :: p in payloads ==> Encodable(p)
    requires Concat(chunks) == EncodeAll(crc, payloads) && NeverFull(crc, chunks)
    ensures Session(crc, chunks) == Reading(payloads, [], 0)
  {
    StreamingEqualsBatch(crc, chunks);
    ScanUndoesEncode(crc, payloads);
  }

  // ----- conservation

  function FrameBytes(payloads: seq<Bytes>): nat {
    if payloads == [] then 0 else HEADER_LEN + |payloads[0]| + FrameBytes(payloads[1..])
  }

  lemma {:induction false} FrameBytesAdd(a: seq<Bytes>, b: seq<Bytes>)
    ensures FrameBytes(a + b) == FrameBytes(a) + FrameBytes(b)
  {
    if a == [] {
      assert a + b == b;
    } else {
      assert (a + b)[1..] == a[1..] + b;
      FrameBytesAdd(a[1..], b);
    }
  }

  lemma {:induction false} ScanConserves(crc: Crc, s: Bytes)
    ensures var x := Scan(crc, s); |s| == FrameBytes(x.payloads) + x.dropped + |x.rest|
    decreases |s|
  {
    match LookAt(crc, s)
    case Whole(payload) =>
      ScanConserves(crc, s[HEADER_LEN + |payload|..]);
      FrameBytesAdd([payload], Scan(crc, s[HEADER_LEN + |payload|..]).payloads);
      assert FrameBytes([payload]) == HEADER_LEN + |payload|;
    case Junk =>
      ScanConserves(crc, s[1..]);
    case Partial =>
  }

  /** Every byte fed is in a yielded frame, counted as dropped, or still buffered, also when
      the cap was hit. */
  lemma {:induction false} BytesConserved(crc: Crc, chunks: seq<Bytes>)
    ensures var x := Session(crc, chunks); |Concat(chunks)| == FrameBytes(x.payloads) + x.dropped + |x.rest|
  {
    if chunks != [] {
      var before := Session(crc, chunks[..|chunks| - 1]);
      var kept := Newest(before.rest + chunks[|chunks| - 1]);
      BytesConserved(crc, chunks[..|chunks| - 1]);
      ScanConserves(crc, kept);
      FrameBytesAdd(before.payloads, Scan(crc, kept).payloads);
    }
  }

  // ----- resynchronisation

  /** A payload yielded, and where in the stream its frame began. */
  datatype Hit = Hit(start: nat, payload: Bytes)

  function End(h: Hit): nat {
    h.start + HEADER_LEN + |h.payload|
  }

  /** The frames of the scan with their places; the scan itself stands at `at`. */
  function Hits(crc: Crc, s: Bytes, at: nat): seq<Hit>
    requires at <= |s|
    decreases |s| - at
  {
    match LookAt(crc, s[at..])
    case Whole(payload) => [Hit(at, payload)] + Hits(crc, s, at + HEADER_LEN + |payload|)
    case Junk => Hits(crc, s, at + 1)
    case Partial => []
  }

  function PayloadsOf(hits: seq<Hit>): seq<Bytes> {
    if hits == [] then [] else [hits[0].payload] + PayloadsOf(hits[1..])
  }

  predicate HitsMatch(crc: Crc, s: Bytes, at: nat)
    requires at <= |s|
  {
    PayloadsOf(Hits(crc, s, at)) == Scan(crc, s[at..]).payloads
  }

  lemma {:induction false} HitsAreScan(crc: Crc, s: Bytes, at: nat)
    requires at <= |s|
    ensures HitsMatch(crc, s, at)
    decreases |s| - at
  {
    match LookAt(crc, s[at..])
    case Whole(payload) =>
      HitsAreScan(crc, s, at + HEADER_LEN + |payload|);
      FirstHitMatches(crc, s, at);
    case Junk =>
      HitsAreScan(crc, s, at + 1);
      DropTwice(s, at, 1);
    case Partial =>
  }

  lemma FirstHitMatches(crc: Crc, s: Bytes, at: nat)
    requires at <= |s| && LookAt(crc, s[at..]).Whole?
    requires HitsMatch(crc, s, at + HEADER_LEN + |LookAt(crc, s[at..]).payload|)
    ensures HitsMatch(crc, s, at)
  {
    var payload := LookAt(crc, s[at..]).payload;
    var n := HEADER_LEN + |payload|;
    DropTwice(s, at, n);
    FirstPayload(Hit(at, payload), Hits(crc, s, at + n));
  }

  lemma DropTwice(s: Bytes, i: nat, n: nat)
    requires i + n <= |s|
    ensures s[i..][n..] == s[i + n..]
  {
  }

  lemma FirstPayload(h: Hit, hits: seq<Hit>)
    ensures PayloadsOf([h] + hits) == [h.payload] + PayloadsOf(hits)
  {
    assert ([h] + hits)[1..] == hits;
  }

  /** A complete frame with a matching CRC stands at `i`. */
  predicate FrameAt(crc: Crc, s: Bytes, i: nat, payload: Bytes) {
    Encodable(payload) && i + HEADER_LEN + |payload| <= |s| &&
    s[i..i + HEADER_LEN + |payload|] == Frame(crc, payload)
  }

  lemma FrameAtIsSeen(crc: Crc, s: Bytes, i: nat, payload: Bytes)
    requires FrameAt(crc, s, i, payload)
    ensures LookAt(crc, s[i..]) == Whole(payload)
  {
    var end := i + HEADER_LEN + |payload|;
    assert s[i..] == s[i..end] + s[end..];
    FrameIsWhole(crc, payload, s[end..]);
  }

  lemma LastDigit(high: nat, low: Byte)
    ensures Value16(high, low) / 256 == high && Value16(high, low) % 256 == low
  {
  }

  lemma FieldsAreEncoded(a: Byte, b: Byte, c: Byte, d: Byte)
    ensures Big16(Value16(a, b)) == [a, b]
    ensures Value32(a, b, c, d) <= MAX_U32 && Big32(Value32(a, b, c, d)) == [a, b, c, d]
  {
    LastDigit(a, b);
    LastDigit(Value16(a, b), c);
    LastDigit(Value16(Value16(a, b), c), d);
  }

  lemma SeenIsFrameAt(crc: Crc, s: Bytes, i: nat)
    requires i <= |s| && LookAt(crc, s[i..]).Whole?
    ensures FrameAt(crc, s, i, LookAt(crc, s[i..]).payload)
  {
    var t := s[i..];
    var payload := LookAt(crc, t).payload;
    FieldsAreEncoded(t[4], t[5], 0, 0);
    FieldsAreEncoded(t[6], t[7], t[8], t[9]);
    var end := HEADER_LEN + |payload|;
    assert t[..end] == t[..4] + t[4..6] + t[6..10] + t[10..end];
    assert t[4..6] == [t[4], t[5]] && t[6..10] == [t[6], t[7], t[8], t[9]];
    assert s[i..i + end] == t[..end];
  }

  /** The hits stand in the stream from `at` on, in order and without overlap. */
  ghost predicate Placed(crc: Crc, s: Bytes, at: nat, hits: seq<Hit>) {
    && (forall k :: 0 <= k < |hits| ==> at <= hits[k].start && FrameAt(crc, s, hits[k].start, hits[k].payload))
    && (forall j, k :: 0 <= j < k < |hits| ==> End(hits[j]) <= hits[k].start)
  }

  /** Soundness: what is yielded really stands in the stream, in order and without overlap. */
  lemma {:induction false} HitsArePlaced(crc: Crc, s: Bytes, at: nat)
    requires at <= |s|
    ensures Placed(crc, s, at, Hits(crc, s, at))
    decreases |s| - at
  {
    match LookAt(crc, s[at..])
    case Whole(payload) =>
      var h := Hit(at, payload);
      HitsArePlaced(crc, s, End(h));
      assert Placed(crc, s, at, [h] + Hits(crc, s, End(h))) by {
        SeenIsFrameAt(crc, s, at);
        FirstHitPlaced(crc, s, h, Hits(crc, s, End(h)));
      }
    case Junk =>
      HitsArePlaced(crc, s, at + 1);
      LaterIsPlaced(crc, s, at, Hits(crc, s, at + 1));
    case Partial =>
  }

  lemma FirstHitPlaced(crc: Crc, s: Bytes, h: Hit, next: seq<Hit>)
    requires FrameAt(crc, s, h.start, h.payload) && Placed(crc, s, End(h), next)
    ensures Placed(crc, s, h.start, [h] + next)
  {
  }

  lemma LaterIsPlaced(crc: Crc, s: Bytes, at: nat, hits: seq<Hit>)
    requires Placed(crc, s, at + 1, hits)
    ensures Placed(crc, s, at, hits)
  {
  }

  /** Yielded at its own place, or covered by a valid frame that began earlier. */
  predicate Accounted(hits: seq<Hit>, i: nat, payload: Bytes) {
    Hit(i, payload) in hits || exists h :: h in hits && h.start < i < End(h)
  }

  lemma AccountedLater(h: Hit, next: seq<Hit>, i: nat, payload: Bytes)
    requires Accounted(next, i, payload) || h == Hit(i, payload) || h.start < i < End(h)
    ensures Accounted([h] + next, i, payload)
  {
    assert h in [h] + next && forall x :: x in next ==> x in [h] + next;
  }

  /** How many bytes a scan that has come to `at` keeps in the end. */
  function KeptFrom(crc: Crc, s: Bytes, at: nat): nat
    requires at <= |s|
  {
    |Scan(crc, s[at..]).rest|
  }

  /** What is kept in the end does not depend on how far the scan has come. */
  lemma KeptAfterFrame(crc: Crc, s: Bytes, at: nat, p: Bytes)
    requires at <= |s| && LookAt(crc, s[at..]) == Whole(p)
    ensures at + HEADER_LEN + |p| <= |s| && KeptFrom(crc, s, at) == KeptFrom(crc, s, at + HEADER_LEN + |p|)
  {
    DropTwice(s, at, HEADER_LEN + |p|);
  }

  lemma KeptAfterJunk(crc: Crc, s: Bytes, at: nat)
    requires at <= |s| && LookAt(crc, s[at..]).Junk?
    ensures at < |s| && KeptFrom(crc, s, at) == KeptFrom(crc, s, at + 1)
  {
    DropTwice(s, at, 1);
  }

  lemma {:induction false} NeverPassesSeen(crc: Crc, s: Bytes, at: nat, i: nat, payload: Bytes)
    requires at <= i <= |s| && LookAt(crc, s[i..]) == Whole(payload) && i + KeptFrom(crc, s, at) < |s|
    ensures Accounted(Hits(crc, s, at), i, payload)
    decreases |s| - at
  {
    match LookAt(crc, s[at..])
    case Whole(p) =>
      KeptAfterFrame(crc, s, at, p);
      if i >= at + HEADER_LEN + |p| {
        NeverPassesSeen(crc, s, at + HEADER_LEN + |p|, i, payload);
      }
      HitAccounts(crc, s, at, i, payload, p);
    case Junk =>
      KeptAfterJunk(crc, s, at);
      NotJunk(crc, s, at, i, payload);
      NeverPassesSeen(crc, s, at + 1, i, payload);
    case Partial =>
  }

  /** A frame found here accounts for every start up to its end. */
  lemma HitAccounts(crc: Crc, s: Bytes, at: nat, i: nat, payload: Bytes, here: Bytes)
    requires at <= i <= |s| && LookAt(crc, s[at..]) == Whole(here) && LookAt(crc, s[i..]) == Whole(payload)
    requires i >= at + HEADER_LEN + |here| ==> Accounted(Hits(crc, s, at + HEADER_LEN + |here|), i, payload)
    ensures Accounted(Hits(crc, s, at), i, payload)
  {
    AccountedLater(Hit(at, here), Hits(crc, s, at + HEADER_LEN + |here|), i, payload);
  }

  lemma NotJunk(crc: Crc, s: Bytes, at: nat, i: nat, payload: Bytes)
    requires at <= i <= |s| && LookAt(crc, s[at..]).Junk? && LookAt(crc, s[i..]) == Whole(payload)
    ensures at < i && Hits(crc, s, at) == Hits(crc, s, at + 1)
  {
  }

  /** Completeness: the decoder never passes the start of a well-formed frame except by
      yielding it, or an earlier valid frame that overlaps it. */
  lemma NeverPassesFrame(crc: Crc, s: Bytes, i: nat, payload: Bytes)
    requires FrameAt(crc, s, i, payload) && i + |Scan(crc, s).rest| < |s|
    ensures Accounted(Hits(crc, s, 0), i, payload)
  {
    FrameAtIsSeen(crc, s, i, payload);
    assert s[0..] == s;
    NeverPassesSeen(crc, s, 0, i, payload);
  }

  /** Recovery: whatever garbage came before, a frame followed by one maximal frame's worth of
      bytes has been yielded, unless a valid frame that began in the garbage covers its start. */
  lemma Resynchronises(crc: Crc, chunks: seq<Bytes>, i: nat, payload: Bytes)
    requires NeverFull(crc, chunks)
    requires FrameAt(crc, Concat(chunks), i, payload) && i + HEADER_LEN + MAX_FRAME <= |Concat(chunks)|
    ensures var hits := Hits(crc, Concat(chunks), 0);
            Session(crc, chunks).payloads == PayloadsOf(hits) && Accounted(hits, i, payload)
  {
    var s := Concat(chunks);
    StreamingEqualsBatch(crc, chunks);
    assert s[0..] == s;
    HitsAreScan(crc, s, 0);
    RestIsShort(crc, s);
    NeverPassesFrame(crc, s, i, payload);
  }
}

/** The reader that strips the chunk framing from a signed streaming upload and checks the signatures. */
module ChunkedReader {
  import opened Common
  import opened ChunkWire

  datatype ChunkState = ReadChunkHeader | ReadChunkTrailer | ReadChunk | VerifyChunk | EofChunk

  /** The signature of a chunk's data, given the signature of the chunk before it. */
  type Signer = (bytes, bytes) -> bytes

  datatype Snapshot = Snapshot(input: bytes, seed: bytes, state: ChunkState, lastChunk: bool, signature: bytes,
                               hashed: bytes, n: nat)

  // ----- one step in each state; an error other than NoError makes Read return it -----

  function HeaderStep(s: Snapshot): (Snapshot, Error) {
    var h := ReadHeader(s.input);
    if h.err == Eof then
      (s.(input := h.rest, n := 0, signature := h.signature, state := ReadChunkTrailer, lastChunk := true), NoError)
    else if h.err != NoError then (s.(input := h.rest), h.err)
    else (s.(input := h.rest, n := h.n, signature := h.signature, state := ReadChunk), NoError)
  }

  function TrailerStep(s: Snapshot): (Snapshot, Error) {
    if |s.input| < 2 then (s.(input := []), Malformed)
    else if s.input[..2] != CRLF then (s.(input := s.input[2..]), Malformed)
    else (s.(input := s.input[2..], state := VerifyChunk), NoError)
  }

  /** Takes k bytes of the chunk's data. */
  function TakeStep(s: Snapshot, k: nat): Snapshot
    requires k <= |s.input| && k <= s.n
  {
    s.(input := s.input[k..], hashed := s.hashed + s.input[..k], n := s.n - k,
       state := if s.n == k then ReadChunkTrailer else ReadChunk)
  }

  function VerifyStep(s: Snapshot, sign: Signer): (Snapshot, Error) {
    var newSignature := sign(s.seed, s.hashed);
    if s.signature != newSignature then (s, SignatureMismatch)
    else (s.(seed := newSignature, hashed := [], state := if s.lastChunk then EofChunk else ReadChunkHeader), NoError)
  }

  // ----- integrity: what is true of any input -----

  datatype Signed = Signed(payload: bytes, signature: bytes)

  function Payload(accepted: seq<Signed>): bytes {
    if accepted == [] then [] else Payload(accepted[..|accepted|-1]) + accepted[|accepted|-1].payload
  }

  /** The signature the next chunk is chained to. */
  function LastSignature(seed: bytes, accepted: seq<Signed>): bytes {
    if accepted == [] then seed else accepted[|accepted|-1].signature
  }

  /** Every chunk's signature is that of its data chained to the chunk before it. */
  predicate ChainOk(seed: bytes, accepted: seq<Signed>, sign: Signer) {
    accepted == []
    || (ChainOk(seed, accepted[..|accepted|-1], sign)
        && accepted[|accepted|-1].signature
           == sign(LastSignature(seed, accepted[..|accepted|-1]), accepted[|accepted|-1].payload))
  }

  /** All bytes taken are those of chunks with matching signatures, the last of which is the empty chunk. */
  ghost predicate AllVerified(seed0: bytes, accepted: seq<Signed>, taken: bytes, sign: Signer) {
    && ChainOk(seed0, accepted, sign) && taken == Payload(accepted)
    && accepted != [] && accepted[|accepted|-1].payload == []
  }

  /** The bytes taken from the stream so far are those of verified chunks and of the one being read. */
  ghost predicate Trusted(s: Snapshot, seed0: bytes, accepted: seq<Signed>, taken: bytes, sign: Signer) {
    && ChainOk(seed0, accepted, sign) && s.seed == LastSignature(seed0, accepted)
    && taken == Payload(accepted) + s.hashed
    && (s.state == ReadChunkHeader || s.state == EofChunk ==> s.hashed == [])
    && (s.lastChunk ==> s.state in {ReadChunkTrailer, VerifyChunk, EofChunk})
    && (s.lastChunk && s.state != EofChunk ==> s.hashed == [])
    && (s.state == EofChunk ==> s.lastChunk && accepted != [] && accepted[|accepted|-1].payload == [])
    && (s.state == ReadChunk ==> s.n > 0)
  }

  lemma HeaderTrusted(s: Snapshot, seed0: bytes, accepted: seq<Signed>, taken: bytes, sign: Signer)
    requires Trusted(s, seed0, accepted, taken, sign) && s.state == ReadChunkHeader
    ensures Trusted(HeaderStep(s).0, seed0, accepted, taken, sign)
  {}

  lemma TrailerTrusted(s: Snapshot, seed0: bytes, accepted: seq<Signed>, taken: bytes, sign: Signer)
    requires Trusted(s, seed0, accepted, taken, sign) && s.state == ReadChunkTrailer
    ensures Trusted(TrailerStep(s).0, seed0, accepted, taken, sign)
  {}

  lemma TakeTrusted(s: Snapshot, seed0: bytes, accepted: seq<Signed>, taken: bytes, sign: Signer, k: nat)
    requires Trusted(s, seed0, accepted, taken, sign) && s.state == ReadChunk && k <= |s.input| && k <= s.n
    ensures Trusted(TakeStep(s, k), seed0, accepted, taken + s.input[..k], sign)
  {
    assert taken + s.input[..k] == Payload(accepted) + (s.hashed + s.input[..k]);
  }

  lemma VerifyTrusted(s: Snapshot, seed0: bytes, accepted: seq<Signed>, taken: bytes, sign: Signer)
    requires Trusted(s, seed0, accepted, taken, sign) && s.state == VerifyChunk && VerifyStep(s, sign).1 == NoError
    ensures Trusted(VerifyStep(s, sign).0, seed0, accepted + [Signed(s.hashed, s.signature)], taken, sign)
  {
    var more := accepted + [Signed(s.hashed, s.signature)];
    assert more[..|accepted|] == accepted;
    assert Payload(more) + [] == taken;
  }

  // ----- decoding: what is true of an encoded upload -----

  /** A chunk as it is sent: the digits of its size, and its data. */
  datatype WireChunk = WireChunk(hex: bytes, payload: bytes)

  ghost predicate Encodable(c: WireChunk) {
    c.payload != [] && AllHex(c.hex) && |c.hex| <= 16 && HexValue(c.hex) == |c.payload|
  }

  /** The upload of the chunks: each signed with the signature before it, then the empty chunk. */
  function Stream(sign: Signer, seed: bytes, chunks: seq<WireChunk>): bytes
    decreases |chunks|
  {
    if chunks == [] then HeaderLine([48], sign(seed, [])) + CRLF
    else
      var sig := sign(seed, chunks[0].payload);
      HeaderLine(chunks[0].hex, sig) + chunks[0].payload + CRLF + Stream(sign, sig, chunks[1..])
  }

  function Payloads(chunks: seq<WireChunk>): bytes {
    if chunks == [] then [] else chunks[0].payload + Payloads(chunks[1..])
  }

  /** What is left of an upload: the rest of the current chunk, the chunks after it, bytes behind them. */
  datatype Plan = Plan(cur: bytes, todo: seq<WireChunk>, extra: bytes) {
    function Left(): bytes {
      cur + Payloads(todo)
    }
  }

  ghost predicate GoodSigner(sign: Signer) {
    forall seed, data :: IsSignature(sign(seed, data))
  }

  /** The reader stands in the upload where the plan says. */
  ghost predicate OnPlan(s: Snapshot, sign: Signer, plan: Plan) {
    && (forall c :: c in plan.todo ==> Encodable(c))
    && (s.lastChunk ==> plan.todo == [])
    && match s.state
       case ReadChunkHeader =>
         !s.lastChunk && plan.cur == [] && s.hashed == [] && s.input == Stream(sign, s.seed, plan.todo) + plan.extra
       case ReadChunk =>
         && !s.lastChunk && s.n == |plan.cur| > 0 && s.signature == sign(s.seed, s.hashed + plan.cur)
         && s.input == plan.cur + (CRLF + (Stream(sign, s.signature, plan.todo) + plan.extra))
       case ReadChunkTrailer =>
         && plan.cur == [] && s.signature == sign(s.seed, s.hashed)
         && s.input == CRLF + (if s.lastChunk then plan.extra else Stream(sign, s.signature, plan.todo) + plan.extra)
       case VerifyChunk =>
         && plan.cur == [] && s.signature == sign(s.seed, s.hashed)
         && s.input == if s.lastChunk then plan.extra else Stream(sign, s.signature, plan.todo) + plan.extra
       case EofChunk => s.lastChunk && plan.cur == []
  }

  /** The plan after a header was read. */
  function HeaderPlan(plan: Plan): Plan {
    if plan.todo == [] then plan else plan.(cur := plan.todo[0].payload, todo := plan.todo[1..])
  }

  lemma HeaderOnPlan(s: Snapshot, sign: Signer, plan: Plan)
    requires GoodSigner(sign) && OnPlan(s, sign, plan) && s.state == ReadChunkHeader
    ensures HeaderStep(s).1 == NoError && OnPlan(HeaderStep(s).0, sign, HeaderPlan(plan))
    ensures HeaderPlan(plan).Left() == plan.Left()
  {
    if plan.todo == [] {
      HeaderOfLast(s, sign, plan);
    } else {
      HeaderOfChunk(s, sign, plan);
    }
  }

  lemma HeaderOfLast(s: Snapshot, sign: Signer, plan: Plan)
    requires GoodSigner(sign) && OnPlan(s, sign, plan) && s.state == ReadChunkHeader && plan.todo == []
    ensures HeaderStep(s).1 == NoError && OnPlan(HeaderStep(s).0, sign, plan)
  {
    var sig := sign(s.seed, []);
    assert s.input == HeaderLine([48], sig) + (CRLF + plan.extra);
    assert [48][..0] == [] && HexValue([48]) == 0;
    HeaderRoundTrip([48], sig, CRLF + plan.extra);
  }

  lemma HeaderOfChunk(s: Snapshot, sign: Signer, plan: Plan)
    requires GoodSigner(sign) && OnPlan(s, sign, plan) && s.state == ReadChunkHeader && plan.todo != []
    ensures HeaderStep(s).1 == NoError && OnPlan(HeaderStep(s).0, sign, HeaderPlan(plan))
    ensures HeaderPlan(plan).Left() == plan.Left()
  {
    var c, rest := plan.todo[0], plan.todo[1..];
    var sig := sign(s.seed, c.payload);
    assert c in plan.todo && Encodable(c);
    var tail := c.payload + (CRLF + (Stream(sign, sig, rest) + plan.extra));
    assert s.input == HeaderLine(c.hex, sig) + tail by {
      var h, p, st, e := HeaderLine(c.hex, sig), c.payload, Stream(sign, sig, rest), plan.extra;
      assert (h + p + CRLF + st) + e == h + (p + (CRLF + (st + e)));
    }
    HeaderRoundTrip(c.hex, sig, tail);
    assert s.hashed + c.payload == c.payload;
  }

  lemma TrailerOnPlan(s: Snapshot, sign: Signer, plan: Plan)
    requires OnPlan(s, sign, plan) && s.state == ReadChunkTrailer
    ensures TrailerStep(s).1 == NoError && OnPlan(TrailerStep(s).0, sign, plan)
  {
    assert s.input[..2] == CRLF;
  }

  lemma TakeOnPlan(s: Snapshot, sign: Signer, plan: Plan, k: nat)
    requires OnPlan(s, sign, plan) && s.state == ReadChunk && 0 < k <= |plan.cur|
    ensures k <= |s.input| && k <= s.n && s.input[..k] == plan.cur[..k]
    ensures OnPlan(TakeStep(s, k), sign, plan.(cur := plan.cur[k..]))
    ensures plan.(cur := plan.cur[k..]).Left() == plan.Left()[k..] && plan.Left()[..k] == plan.cur[..k]
  {
    var cur := plan.cur;
    assert cur == cur[..k] + cur[k..];
    assert s.hashed + cur[..k] + cur[k..] == s.hashed + cur;
    assert s.input[k..] == cur[k..] + (CRLF + (Stream(sign, s.signature, plan.todo) + plan.extra));
    if k == |cur| {
      assert cur[k..] == [] && s.hashed + cur[..k] == s.hashed + cur;
    }
  }

  lemma VerifyOnPlan(s: Snapshot, sign: Signer, plan: Plan)
    requires OnPlan(s, sign, plan) && s.state == VerifyChunk
    ensures VerifyStep(s, sign).1 == NoError && OnPlan(VerifyStep(s, sign).0, sign, plan)
  {}

  // ----- the reader -----

  class S3ChunkedReader {
    const sign: Signer
    ghost const seed0: bytes
    var input: bytes
    var seedSignature: bytes
    var state: ChunkState
    var lastChunk: bool
    var chunkSignature: bytes
    var hashed: bytes
    var n: nat
    /** The chunks verified so far, and all data bytes taken from the stream so far. */
    ghost var accepted: seq<Signed>
    ghost var taken: bytes
    /** Where the reader stands if the input is an encoded upload. */
    ghost var plan: Option<Plan>

    ghost function Now(): Snapshot
      reads this
    {
      Snapshot(input, seedSignature, state, lastChunk, chunkSignature, hashed, n)
    }

    ghost predicate Valid()
      reads this
    {
      && GoodSigner(sign) && Trusted(Now(), seed0, accepted, taken, sign)
      && (plan.Some? ==> OnPlan(Now(), sign, plan.value))
    }

    /** Starts reading; `plan` says which upload the input is, if it is one. */
    constructor (sign: Signer, seed: bytes, input: bytes, ghost plan: Option<Plan>)
      requires GoodSigner(sign)
      requires plan.Some? ==> plan.value.cur == [] && (forall c :: c in plan.value.todo ==> Encodable(c))
                              && input == Stream(sign, seed, plan.value.todo) + plan.value.extra
      ensures Valid() && this.plan == plan && accepted == [] && taken == [] && seed0 == seed && this.sign == sign
    {
      this.sign, this.seed0, this.input, seedSignature := sign, seed, input, seed;
      state, lastChunk, chunkSignature, hashed, n := ReadChunkHeader, false, [], [], 0;
      accepted, taken, this.plan := [], [], plan;
    }

    method StepHeader() returns (err: Error)
      requires Valid() && state == ReadChunkHeader
      modifies this
      ensures Valid() && Now() == HeaderStep(old(Now())).0 && err == HeaderStep(old(Now())).1
      ensures (plan.Some? <==> old(plan).Some?) && (err == NoError ==> |input| < |old(input)|)
      ensures taken == old(taken) && accepted == old(accepted)
      ensures LeftOf(plan) == LeftOf(old(plan)) && (plan.Some? ==> err == NoError)
    {
      hide Trusted;
      hide OnPlan;
      HeaderConsumes(input);
      HeaderTrusted(Now(), seed0, accepted, taken, sign);
      if plan.Some? {
        HeaderOnPlan(Now(), sign, plan.value);
        plan := Some(HeaderPlan(plan.value));
      }
      var h := ReadHeader(input);
      input := h.rest;
      if h.err == Eof {
        n, chunkSignature, state, lastChunk := 0, h.signature, ReadChunkTrailer, true;
        return NoError;
      }
      if h.err != NoError {
        return h.err;
      }
      n, chunkSignature, state := h.n, h.signature, ReadChunk;
      err := NoError;
    }

    method StepTrailer() returns (err: Error)
      requires Valid() && state == ReadChunkTrailer
      modifies this
      ensures Valid() && Now() == TrailerStep(old(Now())).0 && err == TrailerStep(old(Now())).1
      ensures (plan.Some? <==> old(plan).Some?) && (err == NoError ==> |input| < |old(input)|)
      ensures taken == old(taken) && accepted == old(accepted)
      ensures LeftOf(plan) == LeftOf(old(plan)) && (plan.Some? ==> err == NoError)
    {
      TrailerTrusted(Now(), seed0, accepted, taken, sign);
      if plan.Some? {
        TrailerOnPlan(Now(), sign, plan.value);
      }
      if |input| < 2 {
        input := [];
        return Malformed;
      }
      var buf := input[..2];
      input := input[2..];
      if buf != CRLF {
        return Malformed;
      }
      state, err := VerifyChunk, NoError;
    }

    /** Takes the next k bytes of the chunk out of the stream. */
    method Take(k: nat) returns (got: bytes)
      requires Valid() && state == ReadChunk && 0 < k <= n && k <= |input|
      modifies this
      ensures Valid() && got == old(input)[..k] && input == old(input)[k..]
      ensures taken == old(taken) + got && accepted == old(accepted)
      ensures plan.Some? <==> old(plan).Some?
      ensures plan.Some? ==>
        k <= |LeftOf(old(plan))| && LeftOf(plan) == LeftOf(old(plan))[k..] && got == LeftOf(old(plan))[..k]
    {
      ghost var s := Now();
      assert plan.Some? ==> n == |plan.value.cur|;
      hide Trusted;
      hide OnPlan;
      TakeTrusted(s, seed0, accepted, taken, sign, k);
      if plan.Some? {
        TakeOnPlan(s, sign, plan.value, k);
        plan := Some(plan.value.(cur := plan.value.cur[k..]));
      }
      got := input[..k];
      taken := taken + got;
      hashed, input, n := hashed + got, input[k..], n - k;
      if n == 0 {
        state := ReadChunkTrailer;
      }
      assert Now() == TakeStep(s, k);
    }

    /** Reads some bytes of the chunk into buf[base..]: at least one, and no more than fit. */
    method StepChunk(buf: array<byte>, base: nat) returns (n0: nat, err: Error)
      requires Valid() && state == ReadChunk && base < buf.Length
      modifies this, buf
      ensures Valid() && base + n0 <= buf.Length && (err == NoError <==> n0 > 0)
      ensures if err == NoError then n0 <= |old(input)| && input == old(input)[n0..]
              else err == UnexpectedEof && input == old(input)
      ensures taken == old(taken) + buf[base..base + n0] && accepted == old(accepted)
      ensures buf[..base] == old(buf[..base]) && buf[base + n0..] == old(buf[base + n0..])
      ensures plan.Some? <==> old(plan).Some?
      ensures plan.Some? ==> err == NoError && n0 <= |LeftOf(old(plan))| && LeftOf(plan) == LeftOf(old(plan))[n0..]
                             && buf[base..base + n0] == LeftOf(old(plan))[..n0]
    {
      assert n > 0 && (plan.Some? ==> n == |plan.value.cur| <= |input|);
      var most := Min(Min(buf.Length - base, n), |input|);
      if most == 0 {
        return 0, UnexpectedEof;
      }
      n0 :| 0 < n0 <= most;
      var got := Take(n0);
      CopyInto(buf, base, got);
      err := NoError;
    }

    method StepVerify() returns (err: Error)
      requires Valid() && state == VerifyChunk
      modifies this
      ensures Valid() && Now() == VerifyStep(old(Now()), sign).0 && err == VerifyStep(old(Now()), sign).1
      ensures (plan.Some? <==> old(plan).Some?) && input == old(input)
      ensures err == NoError ==> state == ReadChunkHeader || state == EofChunk
      ensures taken == old(taken)
      ensures LeftOf(plan) == LeftOf(old(plan)) && (plan.Some? ==> err == NoError)
    {
      if plan.Some? {
        VerifyOnPlan(Now(), sign, plan.value);
      }
      var newSignature := sign(seedSignature, hashed);
      if chunkSignature != newSignature {
        return SignatureMismatch;
      }
      VerifyTrusted(Now(), seed0, accepted, taken, sign);
      accepted := accepted + [Signed(hashed, chunkSignature)];
      seedSignature, hashed := newSignature, [];
      state := if lastChunk then EofChunk else ReadChunkHeader;
      err := NoError;
    }

    /** What is left when the reader waits for buffer space, and when it is at the end. */
    lemma LeftNow()
      requires Valid() && plan.Some?
      ensures state == ReadChunk ==> LeftOf(plan) != []
      ensures state == EofChunk ==> LeftOf(plan) == []
    {}

    lemma AtEnd()
      requires Valid() && state == EofChunk
      ensures AllVerified(seed0, accepted, taken, sign)
    {
      assert Payload(accepted) + [] == Payload(accepted);
    }

    function Rank(): nat
      reads this
    {
      if state == VerifyChunk then 2 else if state == ReadChunkHeader then 1 else 0
    }

    /** A step that reads no data: header, trailer or signature check. */
    method Advance() returns (err: Error)
      requires Valid() && state != ReadChunk && state != EofChunk
      modifies this
      ensures Valid() && taken == old(taken) && err != Eof
      ensures (plan.Some? <==> old(plan).Some?) && LeftOf(plan) == LeftOf(old(plan)) && (plan.Some? ==> err == NoError)
      ensures err == NoError ==> |input| < |old(input)| || (input == old(input) && Rank() < old(Rank()))
    {
      match state
      case ReadChunkHeader => err := StepHeader();
      case ReadChunkTrailer => err := StepTrailer();
      case VerifyChunk => err := StepVerify();
    }

    /** One turn of the loop in Read; `done` when Read returns. */
    method Turn(buf: array<byte>, got0: nat, ghost plan0: Option<Plan>, ghost taken0: bytes)
      returns (got: nat, err: Error, done: bool)
      requires Valid() && got0 <= buf.Length && (plan.Some? <==> plan0.Some?)
      requires Delivered(plan0, taken0, buf[..got0], plan, taken)
      modifies this, buf
      ensures Valid() && got <= buf.Length && (plan.Some? <==> plan0.Some?)
      ensures err == NoError || err == Eof ==> Delivered(plan0, taken0, buf[..got], plan, taken)
      ensures err == Eof ==> done && state == EofChunk
      ensures done && err == NoError ==> state == ReadChunk && got == buf.Length
      ensures err != NoError && err != Eof ==> done && got == 0 && taken0 <= taken && plan == None
      ensures !done ==> |input| < |old(input)| || (input == old(input) && Rank() < old(Rank()))
    {
      hide Trusted;
      hide OnPlan;
      got, err, done := got0, NoError, false;
      if state == EofChunk {
        return got, Eof, true;
      }
      if state == ReadChunk {
        if got == buf.Length {
          return got, NoError, true;
        }
        var n0;
        n0, err := ReadMore(buf, got, plan0, taken0);
        got := got + n0;
      } else {
        err := Advance();
      }
      if err != NoError {
        return 0, err, true;
      }
    }

    /**
     Fills the buffer with data.  The end of the file is only reported once every chunk's signature
     matched; an encoded upload is delivered byte for byte, whatever the buffer sizes.
     */
    method Read(buf: array<byte>) returns (got: nat, err: Error)
      requires Valid()
      modifies this, buf
      ensures Valid() && got <= buf.Length && (plan.Some? <==> old(plan).Some?)
      ensures err == NoError || err == Eof ==> Delivered(old(plan), old(taken), buf[..got], plan, taken)
      ensures err != NoError && err != Eof ==> got == 0 && old(taken) <= taken && plan == None
      ensures err == NoError ==> got == buf.Length
      ensures err == Eof ==> state == EofChunk && AllVerified(seed0, accepted, taken, sign)
      ensures plan.Some? ==>
        got == Min(buf.Length, |LeftOf(old(plan))|) && (err == Eof <==> buf.Length >= |LeftOf(old(plan))|)
    {
      got, err := 0, NoError;
      assert buf[..0] == [];
      hide Trusted;
      hide OnPlan;
      var done := false;
      while !done
        invariant Valid() && got <= buf.Length && (plan.Some? <==> old(plan).Some?)
        invariant err == NoError || err == Eof ==> Delivered(old(plan), old(taken), buf[..got], plan, taken)
        invariant !done ==> err == NoError
        invariant err == Eof ==> state == EofChunk
        invariant done && err == NoError ==> state == ReadChunk && got == buf.Length
        invariant err != NoError && err != Eof ==> got == 0 && old(taken) <= taken && plan == None
        decreases !done, |input|, Rank()
      {
        got, err, done := Turn(buf, got, old(plan), old(taken));
      }
      if err == Eof {
        AtEnd();
      }
      if plan.Some? {
        LeftNow();
      }
    }

    /** One read of chunk data behind what the buffer already holds. */
    method ReadMore(buf: array<byte>, got: nat, ghost plan0: Option<Plan>, ghost taken0: bytes)
      returns (n0: nat, err: Error)
      requires Valid() && state == ReadChunk && got < buf.Length
      requires (plan.Some? <==> plan0.Some?) && Delivered(plan0, taken0, buf[..got], plan, taken)
      modifies this, buf
      ensures Valid() && got + n0 <= buf.Length && (plan.Some? <==> plan0.Some?)
      ensures Delivered(plan0, taken0, buf[..got + n0], plan, taken)
      ensures err == NoError ==> |input| < |old(input)|
      ensures err == NoError || err == UnexpectedEof
      ensures plan.Some? ==> err == NoError
    {
      hide *;
      n0, err := StepChunk(buf, got);
      assert buf[..got + n0] == buf[..got] + buf[got..got + n0];
      DeliveredMore(plan0, taken0, buf[..got], old(plan), old(taken), buf[got..got + n0], plan, taken);
    }
  }

  /** The bytes were taken from the stream, and if it is an upload they are the next ones of its data. */
  ghost predicate Delivered(plan0: Option<Plan>, taken0: bytes, b: bytes, plan: Option<Plan>, taken: bytes) {
    && taken == taken0 + b
    && (plan0.Some? ==> |b| <= |LeftOf(plan0)| && b == LeftOf(plan0)[..|b|] && LeftOf(plan) == LeftOf(plan0)[|b|..])
  }

  lemma DeliveredMore(plan0: Option<Plan>, taken0: bytes, b: bytes, plan1: Option<Plan>, taken1: bytes,
                      c: bytes, plan2: Option<Plan>, taken2: bytes)
    requires Delivered(plan0, taken0, b, plan1, taken1) && taken2 == taken1 + c && (plan0.Some? <==> plan1.Some?)
    requires plan1.Some? ==>
      |c| <= |LeftOf(plan1)| && c == LeftOf(plan1)[..|c|] && LeftOf(plan2) == LeftOf(plan1)[|c|..]
    ensures Delivered(plan0, taken0, b + c, plan2, taken2)
  {
    if plan0.Some? {
      var left := LeftOf(plan0);
      assert left[|b|..][|c|..] == left[|b| + |c|..];
      assert left[..|b| + |c|] == left[..|b|] + left[|b|..][..|c|];
    }
  }

  function Sum(sizes: seq<nat>): nat {
    if sizes == [] then 0 else Sum(sizes[..|sizes|-1]) + sizes[|sizes|-1]
  }

  /**
   Reading an upload with any sequence of buffer sizes delivers the data in order, and reports the end
   with the call that reaches it and with every call after.
   */
  method ReadSeries(reader: S3ChunkedReader, sizes: seq<nat>) returns (out: bytes, eof: bool)
    requires reader.Valid() && reader.plan.Some?
    modifies reader
    ensures reader.Valid() && reader.plan.Some?
    ensures
      var left := LeftOf(old(reader.plan));
      |out| == Min(Sum(sizes), |left|) && out == left[..|out|] && (sizes != [] ==> (eof <==> Sum(sizes) >= |left|))
  {
    hide *;
    ghost var left := LeftOf(reader.plan);
    out, eof := [], false;
    SeriesStart(sizes, left);
    for i := 0 to |sizes|
      invariant reader.Valid() && reader.plan.Some? && SeriesAt(left, out, LeftOf(reader.plan), Sum(sizes[..i]))
      invariant i > 0 ==> (eof <==> Sum(sizes[..i]) >= |left|)
    {
      ghost var rest := LeftOf(reader.plan);
      var b, end := ReadOnce(reader, sizes[i]);
      SeriesStep(left, out, rest, b, sizes, i);
      out, eof := out + b, end;
    }
    SeriesEnd(left, out, LeftOf(reader.plan), Sum(sizes));
  }

  /** One read into a new buffer. */
  method ReadOnce(reader: S3ChunkedReader, size: nat) returns (b: bytes, eof: bool)
    requires reader.Valid() && reader.plan.Some?
    modifies reader
    ensures reader.Valid() && reader.plan.Some?
    ensures var left := LeftOf(old(reader.plan));
      && |b| == Min(size, |left|) && b == left[..|b|] && LeftOf(reader.plan) == left[|b|..]
      && (eof <==> size >= |left|)
  {
    hide Trusted;
    hide OnPlan;
    hide AllVerified;
    var buf := new byte[size];
    var got, err := reader.Read(buf);
    b, eof := buf[..got], err == Eof;
  }

  /** After asking for `total` bytes, so many have come out, and the rest is still to come. */
  ghost predicate SeriesAt(left: bytes, out: bytes, rest: bytes, total: nat) {
    |out| == Min(total, |left|) && out == left[..|out|] && rest == left[|out|..]
  }

  lemma SeriesStart(sizes: seq<nat>, left: bytes)
    ensures SeriesAt(left, [], left, Sum(sizes[..0])) && sizes[..|sizes|] == sizes
  {}

  lemma SeriesStep(left: bytes, out: bytes, rest: bytes, b: bytes, sizes: seq<nat>, i: nat)
    requires i < |sizes| && SeriesAt(left, out, rest, Sum(sizes[..i]))
    requires |b| == Min(sizes[i], |rest|) && b == rest[..|b|]
    ensures SeriesAt(left, out + b, rest[|b|..], Sum(sizes[..i+1]))
    ensures sizes[i] >= |rest| <==> Sum(sizes[..i+1]) >= |left|
  {
    assert sizes[..i+1][..i] == sizes[..i];
    assert out + b == left[..|out| + |b|];
  }

  lemma SeriesEnd(left: bytes, out: bytes, rest: bytes, total: nat)
    requires SeriesAt(left, out, rest, total)
    ensures |out| == Min(total, |left|) && out == left[..|out|]
  {}

  ghost function LeftOf(plan: Option<Plan>): bytes {
    match plan case None => [] case Some(p) => p.Left()
  }
}

/**
  The 8-byte fragment header and the splitting of a payload into fragments
  (`profile/datagram/fragment.rs`), with the sizing rules around it.
 */
module Fragment {
  import opened Basics

  const FRAGMENT_HEADER_LEN: nat := 8
  const MAX_FRAGMENTS: nat := 0xFFFF
  const ATT_HEADER_LEN: nat := 3
  const MAX_ATT_ATTRIBUTE_LEN: nat := 512
  /** The largest `usize` on a 64-bit target. */
  const USIZE_MAX: nat := 0xFFFF_FFFF_FFFF_FFFF

  datatype Header = Header(msgId: u32, index: u16, total: u16)

  // ---- Header ----------------------------------------------------------------

  /** `to_le_bytes` and `from_le_bytes` of 16 and 32 bits. */
  function Le16(n: u16): Bytes {
    [n % 0x100, n / 0x100]
  }

  function Le32(n: u32): Bytes {
    [n % 0x100, n / 0x100 % 0x100, n / 0x100 / 0x100 % 0x100, n / 0x100 / 0x100 / 0x100]
  }

  function FromLe16(a: byte, b: byte): u16 {
    a as int + 0x100 * b as int
  }

  function FromLe32(a: byte, b: byte, c: byte, d: byte): u32 {
    a as int + 0x100 * (b as int + 0x100 * (c as int + 0x100 * d as int))
  }

  /** The wire form: three little-endian integers. */
  function HeaderBytes(h: Header): Bytes {
    Le32(h.msgId) + Le16(h.index) + Le16(h.total)
  }

  method WriteTo(h: Header, out: Bytes) returns (written: Bytes)
    ensures written == out + HeaderBytes(h)
  {
    written := out + Le32(h.msgId);
    written := written + Le16(h.index);
    written := written + Le16(h.total);
  }

  function Parse(bytes: Bytes): Option<(Header, Bytes)> {
    if |bytes| < FRAGMENT_HEADER_LEN then
      None
    else
      Some((Header(FromLe32(bytes[0], bytes[1], bytes[2], bytes[3]), FromLe16(bytes[4], bytes[5]), FromLe16(bytes[6], bytes[7])),
            bytes[FRAGMENT_HEADER_LEN..]))
  }

  lemma Digit(a: byte, rest: nat)
    ensures (a + 0x100 * rest) % 0x100 == a && (a + 0x100 * rest) / 0x100 == rest
  {}

  lemma Le16RoundTrip(n: u16)
    ensures FromLe16(Le16(n)[0], Le16(n)[1]) == n
  {}

  lemma FromLe16RoundTrip(a: byte, b: byte)
    ensures Le16(FromLe16(a, b)) == [a, b]
  {}

  lemma Le32RoundTrip(n: u32)
    ensures FromLe32(Le32(n)[0], Le32(n)[1], Le32(n)[2], Le32(n)[3]) == n
  {}

  lemma FromLe32RoundTrip(a: byte, b: byte, c: byte, d: byte)
    ensures Le32(FromLe32(a, b, c, d)) == [a, b, c, d]
  {
    var n2 := c as int + 0x100 * d as int;
    var n1 := b as int + 0x100 * n2;
    Digit(c, d);
    Digit(b, n2);
    Digit(a, n1);
  }

  lemma PrintedParses(h: Header, body: Bytes)
    ensures Parse(HeaderBytes(h) + body) == Some((h, body))
  {
    var bytes := HeaderBytes(h) + body;
    Le32RoundTrip(h.msgId);
    Le16RoundTrip(h.index);
    Le16RoundTrip(h.total);
    assert bytes[..4] == Le32(h.msgId) && bytes[4..6] == Le16(h.index) && bytes[6..8] == Le16(h.total);
    assert bytes[8..] == body;
  }

  lemma ParsedPrints(bytes: Bytes)
    requires |bytes| >= FRAGMENT_HEADER_LEN
    ensures var (h, body) := Parse(bytes).value;
            bytes == HeaderBytes(h) + body
  {
    FromLe32RoundTrip(bytes[0], bytes[1], bytes[2], bytes[3]);
    FromLe16RoundTrip(bytes[4], bytes[5]);
    FromLe16RoundTrip(bytes[6], bytes[7]);
    assert bytes == [bytes[0], bytes[1], bytes[2], bytes[3]] + [bytes[4], bytes[5]] + [bytes[6], bytes[7]] + bytes[8..];
  }

  /** Parsing and printing are inverse: a buffer parses to a header and a body exactly when
      it is that header's wire form followed by that body. */
  lemma ParseIffPrinted(bytes: Bytes, h: Header, body: Bytes)
    ensures Parse(bytes) == Some((h, body)) <==> bytes == HeaderBytes(h) + body
  {
    PrintedParses(h, body);
    if |bytes| >= FRAGMENT_HEADER_LEN {
      ParsedPrints(bytes);
    }
  }

  // ---- Splitting ---------------------------------------------------------------

  /** The payload cut into pieces of `budget` bytes, the last one possibly shorter. An empty
      payload is one empty piece. */
  function Chunks(payload: Bytes, budget: nat): (r: seq<Bytes>)
    requires budget > 0
    ensures |r| >= 1
    decreases |payload|
  {
    if |payload| <= budget then [payload] else [payload[..budget]] + Chunks(payload[budget..], budget)
  }

  function Join(chunks: seq<Bytes>): Bytes {
    if chunks == [] then [] else chunks[0] + Join(chunks[1..])
  }

  /** The pieces rejoin to the payload and none exceeds the budget. */
  lemma {:induction false} ChunksRejoin(payload: Bytes, budget: nat)
    requires budget > 0
    ensures Join(Chunks(payload, budget)) == payload
    ensures forall c <- Chunks(payload, budget) :: |c| <= budget
    decreases |payload|
  {
    var chunks := Chunks(payload, budget);
    if |payload| <= budget {
      assert chunks[1..] == [];
      assert Join(chunks) == payload;
    } else {
      ChunksRejoin(payload[budget..], budget);
      assert chunks[1..] == Chunks(payload[budget..], budget);
      assert payload == payload[..budget] + payload[budget..];
    }
  }

  /** Their number is the exact ceiling. */
  lemma {:induction false} ChunkCountIsCeiling(payload: Bytes, budget: nat)
    requires budget > 0
    ensures |payload| <= |Chunks(payload, budget)| * budget
    ensures |Chunks(payload, budget)| == 1 || (|Chunks(payload, budget)| - 1) * budget < |payload|
    ensures |Chunks(payload, budget)| == FragmentCount(|payload|, budget)
    decreases |payload|
  {
    var n := |Chunks(payload, budget)|;
    if |payload| > budget {
      ChunkCountIsCeiling(payload[budget..], budget);
      assert n * budget == (n - 1) * budget + budget;
      assert (n - 1) * budget == (n - 2) * budget + budget;
    }
    CeilingIsUnique(|payload|, budget, n);
  }

  /** In a message of two or more pieces, no piece is empty. */
  lemma {:induction false} NoEmptyChunk(payload: Bytes, budget: nat)
    requires budget > 0 && |Chunks(payload, budget)| > 1
    ensures forall c <- Chunks(payload, budget) :: |c| >= 1
    decreases |payload|
  {
    var rest := Chunks(payload[budget..], budget);
    assert Chunks(payload, budget)[1..] == rest;
    if |rest| > 1 {
      NoEmptyChunk(payload[budget..], budget);
    }
  }

  datatype SplitResult = Fragments(fragments: seq<Bytes>) | ZeroBudget | TooManyFragments

  /** `payload.len().div_ceil(budget)`, and 1 for an empty payload. */
  function FragmentCount(len: nat, budget: nat): nat
    requires budget > 0
  {
    if len == 0 then 1 else (len + budget - 1) / budget
  }

  function SplitSpec(msgId: u32, payload: Bytes, budget: nat): SplitResult {
    if budget == 0 then
      ZeroBudget
    else
      var chunks := Chunks(payload, budget);
      if |chunks| > MAX_FRAGMENTS then TooManyFragments else Fragments(WireFragments(msgId, chunks))
  }

  function WireFragment(msgId: u32, chunks: seq<Bytes>, i: nat): Bytes
    requires i < |chunks| <= MAX_FRAGMENTS
  {
    HeaderBytes(Header(msgId, i, |chunks|)) + chunks[i]
  }

  function WireFragments(msgId: u32, chunks: seq<Bytes>): seq<Bytes>
    requires |chunks| <= MAX_FRAGMENTS
  {
    seq(|chunks|, i requires 0 <= i < |chunks| => WireFragment(msgId, chunks, i))
  }

  lemma CeilingIsUnique(len: nat, budget: nat, n: nat)
    requires budget > 0 && n >= 1
    requires len <= n * budget
    requires n == 1 || (n - 1) * budget < len
    ensures FragmentCount(len, budget) == n
  {
    if len > 0 {
      var q := (len + budget - 1) / budget;
      assert q * budget <= len + budget - 1 < q * budget + budget;
      assert (q + 1) * budget == q * budget + budget;
      assert (n + 1) * budget == n * budget + budget;
      assert (n - 1) * budget == n * budget - budget;
      MulOrder(n - 1, q, budget);
      MulOrder(q, n + 1, budget);
    }
  }

  /** The loop of `split`: every index and the total are cast to 16 bits, which never truncates. */
  method Split(msgId: u32, payload: Bytes, budget: nat) returns (r: SplitResult)
    ensures r == SplitSpec(msgId, payload, budget)
  {
    if budget == 0 {
      return ZeroBudget;
    }
    ghost var chunks := Chunks(payload, budget);
    ChunkCountIsCeiling(payload, budget);
    var total := FragmentCount(|payload|, budget);
    if total > MAX_FRAGMENTS {
      return TooManyFragments;
    }
    var fragments: seq<Bytes> := [];
    var rest := payload;
    for index := 0 to total
      invariant total == |chunks| <= MAX_FRAGMENTS
      invariant index < total ==> Chunks(rest, budget) == chunks[index..]
      invariant |fragments| == index
      invariant forall i | 0 <= i < index :: fragments[i] == WireFragment(msgId, chunks, i)
    {
      var chunk := if |rest| <= budget then rest else rest[..budget];
      assert chunk == chunks[index];
      var header := Header(msgId, index % 0x1_0000, total % 0x1_0000);
      assert header == Header(msgId, index, |chunks|);
      var fragment := WriteTo(header, []);
      fragment := fragment + chunk;
      assert fragment == WireFragment(msgId, chunks, index);
      fragments := fragments + [fragment];
      if |rest| > budget {
        rest := rest[budget..];
        assert Chunks(rest, budget) == chunks[index..][1..];
      }
    }
    r := Fragments(fragments);
    assert fragments == WireFragments(msgId, chunks);
  }

  // ---- Sizing ------------------------------------------------------------------

  /** `GattConnection::max_write_len`. */
  function MaxWriteLen(attMtu: u16): nat {
    Min(Max(attMtu - ATT_HEADER_LEN, 0), MAX_ATT_ATTRIBUTE_LEN)
  }

  /** The central's fragment budget; `None` when the MTU leaves no room after the header. */
  function CentralBudget(maxWriteLen: nat): Option<nat> {
    if maxWriteLen > FRAGMENT_HEADER_LEN then Some(maxWriteLen - FRAGMENT_HEADER_LEN) else None
  }

  function EffectiveMaxMessageLen(configured: nat, budget: nat): nat {
    Min(configured, Min(budget * MAX_FRAGMENTS, USIZE_MAX))
  }

  /** Any payload that passes the size check of `send` is split, for every budget. */
  lemma SendCheckSuffices(msgId: u32, payload: Bytes, configured: nat, budget: nat)
    requires budget > 0
    requires |payload| <= EffectiveMaxMessageLen(configured, budget)
    ensures SplitSpec(msgId, payload, budget).Fragments?
    ensures |SplitSpec(msgId, payload, budget).fragments| == FragmentCount(|payload|, budget) <= MAX_FRAGMENTS
  {
    var n := |Chunks(payload, budget)|;
    ChunkCountIsCeiling(payload, budget);
    MulOrder(n - 1, MAX_FRAGMENTS, budget);
  }

  /** All pieces but the last are full. */
  lemma {:induction false} OnlyTheLastIsShort(payload: Bytes, budget: nat, i: nat)
    requires budget > 0 && i < |Chunks(payload, budget)| - 1
    ensures |Chunks(payload, budget)[i]| == budget
    decreases |payload|
  {
    if i > 0 {
      OnlyTheLastIsShort(payload[budget..], budget, i - 1);
    }
  }

  /** For every negotiated MTU and configured limit, a payload within the channel's limit is
      split into the exact ceiling of fragments. Each fits one ATT write of that MTU, and all but
      the last fill it, up to the 512 bytes of an attribute. */
  lemma EveryFragmentFitsOneWrite(msgId: u32, payload: Bytes, attMtu: u16, configured: nat)
    requires CentralBudget(MaxWriteLen(attMtu)).Some?
    requires |payload| <= EffectiveMaxMessageLen(configured, CentralBudget(MaxWriteLen(attMtu)).value)
    ensures var split := SplitSpec(msgId, payload, CentralBudget(MaxWriteLen(attMtu)).value);
            && split.Fragments?
            && |split.fragments| == FragmentCount(|payload|, CentralBudget(MaxWriteLen(attMtu)).value)
            && (forall f <- split.fragments :: |f| + ATT_HEADER_LEN <= attMtu && |f| <= MAX_ATT_ATTRIBUTE_LEN)
            && (forall i | 0 <= i < |split.fragments| - 1 ::
                  |split.fragments[i]| == MAX_ATT_ATTRIBUTE_LEN || |split.fragments[i]| + ATT_HEADER_LEN == attMtu)
  {
    var budget := CentralBudget(MaxWriteLen(attMtu)).value;
    SendCheckSuffices(msgId, payload, configured, budget);
    ChunksRejoin(payload, budget);
    var chunks := Chunks(payload, budget);
    forall i | 0 <= i < |chunks|
      ensures |WireFragment(msgId, chunks, i)| <= budget + FRAGMENT_HEADER_LEN
      ensures i < |chunks| - 1 ==> |WireFragment(msgId, chunks, i)| == budget + FRAGMENT_HEADER_LEN
    {
      assert chunks[i] in chunks;
      if i < |chunks| - 1 {
        OnlyTheLastIsShort(payload, budget, i);
      }
    }
  }

  lemma CountWithin(len: nat, budget: nat, n: nat)
    requires budget > 0 && n > 0
    ensures FragmentCount(len, budget) <= n <==> len <= budget * n
  {
    var q := (len + budget - 1) / budget;
    assert q * budget <= len + budget - 1 < q * budget + budget;
    assert (n + 1) * budget == n * budget + budget;
    if len > 0 {
      if q <= n {
        MulOrder(q, n, budget);
      } else {
        MulOrder(n + 1, q, budget);
      }
    }
  }

  /** The channel's limit, as its callers see it: a payload is within it exactly when it is within
      the configured limit, within `usize`, and needs at most 65535 fragments. */
  lemma LimitIsExact(len: nat, configured: nat, budget: nat)
    requires budget > 0
    ensures len <= EffectiveMaxMessageLen(configured, budget)
       <==> len <= configured && len <= USIZE_MAX && FragmentCount(len, budget) <= MAX_FRAGMENTS
  {
    CountWithin(len, budget, MAX_FRAGMENTS);
  }

  /** The limit is tight whenever the fragment count is what lowers it: one byte more needs a
      fragment too many. */
  lemma LimitIsTight(msgId: u32, payload: Bytes, configured: nat, budget: nat)
    requires budget > 0 && budget * MAX_FRAGMENTS < USIZE_MAX
    requires configured > budget * MAX_FRAGMENTS
    requires |payload| == EffectiveMaxMessageLen(configured, budget) + 1
    ensures SplitSpec(msgId, payload, budget) == TooManyFragments
  {
    ChunkCountIsCeiling(payload, budget);
    var n := |Chunks(payload, budget)|;
    MulOrder(n, MAX_FRAGMENTS, budget);
  }
}
